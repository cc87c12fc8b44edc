/** The fixed-window limiter on a shared counter per client and route. */
module RateLimit {
  import opened Wrappers
  import opened RedisStore

  /** `Math.ceil(windowMs / 1000)` */
  function WindowSeconds(windowMs: nat): nat {
    (windowMs + 999) / 1000
  }

  class RateLimiter {
    const redis: Redis<nat>
    const windowMs: nat
    const maxRequests: nat

    constructor (redis: Redis<nat>, windowMs: nat, maxRequests: nat)
      ensures this.redis == redis && this.windowMs == windowMs && this.maxRequests == maxRequests
    {
      this.redis, this.windowMs, this.maxRequests := redis, windowMs, maxRequests;
    }

    /** The counter moves before the decision, also for a request that is refused. */
    method Admit(key: string) returns (admitted: bool)
      modifies redis`entries
      ensures admitted == Admits(old(redis.entries), Arrival(key, redis.now), maxRequests)
      ensures redis.entries == After(old(redis.entries), Arrival(key, redis.now), WindowSeconds(windowMs))
    {
      var count := IncrementWithTtl(redis, key, WindowSeconds(windowMs));
      admitted := count <= maxRequests;
    }
  }

  datatype Arrival = Arrival(key: string, at: Time)

  type Counters = map<string, Entry<nat>>

  predicate Admits(counters: Counters, arrival: Arrival, max: nat) {
    IncrementedCount(counters, arrival.at, arrival.key) <= max
  }

  function After(counters: Counters, arrival: Arrival, window: nat): Counters {
    Incremented(counters, arrival.at, arrival.key, window)
  }

  predicate InOrder(arrivals: seq<Arrival>) {
    forall i, j :: 0 <= i < j < |arrivals| ==> arrivals[i].at <= arrivals[j].at
  }

  /** How many requests with `key` arriving in the closed interval from `a` to `b` are admitted. */
  function Admitted(counters: Counters, arrivals: seq<Arrival>, window: nat, max: nat, key: string, a: Time,
                    b: Time): nat
    decreases |arrivals|
  {
    if arrivals == [] then 0
    else
      (if arrivals[0].key == key && a <= arrivals[0].at <= b && Admits(counters, arrivals[0], max) then 1 else 0)
      + Admitted(After(counters, arrivals[0], window), arrivals[1..], window, max, key, a, b)
  }

  /** Every counter has counted something and has a deadline. */
  ghost predicate AllExpire(counters: Counters) {
    forall k :: k in counters ==> counters[k].value >= 1 && counters[k].deadline.Some?
  }

  function CountersAfter(counters: Counters, arrivals: seq<Arrival>, window: nat): Counters
    decreases |arrivals|
  {
    if arrivals == [] then counters else CountersAfter(After(counters, arrivals[0], window), arrivals[1..], window)
  }

  /** The script's repair of a counter without a deadline is never needed: from an empty store, any
      traffic leaves only counters with a deadline. */
  lemma {:induction false} RepairNeverTriggers(counters: Counters, arrivals: seq<Arrival>, window: nat)
    requires AllExpire(counters)
    ensures AllExpire(CountersAfter(counters, arrivals, window))
    decreases |arrivals|
  {
    if arrivals != [] {
      RepairNeverTriggers(After(counters, arrivals[0], window), arrivals[1..], window);
    }
  }

  /** What the current window still admits. */
  function Left(count: nat, max: nat): nat {
    if count <= max then max - count else 0
  }

  lemma {:induction false} NothingCountedAfter(
    counters: Counters, arrivals: seq<Arrival>, window: nat, max: nat, key: string, a: Time, b: Time)
    requires forall i :: 0 <= i < |arrivals| ==> b < arrivals[i].at
    ensures Admitted(counters, arrivals, window, max, key, a, b) == 0
    decreases |arrivals|
  {
    if arrivals != [] {
      NothingCountedAfter(After(counters, arrivals[0], window), arrivals[1..], window, max, key, a, b);
    }
  }

  /** From a running window up to `b`: what is left of it, and one more full window if `b` reaches past it. */
  lemma {:induction false} RunningWindowBound(
    counters: Counters, arrivals: seq<Arrival>, window: nat, max: nat, key: string, a: Time, b: Time)
    requires AllExpire(counters) && InOrder(arrivals) && key in counters
    requires b < counters[key].deadline.value + window * 1000
    ensures Admitted(counters, arrivals, window, max, key, a, b)
         <= Left(counters[key].value, max) + if b < counters[key].deadline.value then 0 else max
    decreases |arrivals|
  {
    if arrivals != [] {
      var next := After(counters, arrivals[0], window);
      if b < arrivals[0].at {
        NothingCountedAfter(counters, arrivals, window, max, key, a, b);
      } else {
        RunningWindowBound(next, arrivals[1..], window, max, key, a, b);
      }
    }
  }

  /** From a moment at which the key has no running window. */
  lemma {:induction false} NoWindowBound(
    counters: Counters, arrivals: seq<Arrival>, window: nat, max: nat, key: string, a: Time, b: Time)
    requires window > 0 && b - a <= window * 1000
    requires AllExpire(counters) && InOrder(arrivals) && forall i :: 0 <= i < |arrivals| ==> a <= arrivals[i].at
    requires !IsLive(counters, a, key)
    ensures Admitted(counters, arrivals, window, max, key, a, b) <= 2 * max
    decreases |arrivals|
  {
    if arrivals != [] {
      var next := After(counters, arrivals[0], window);
      if arrivals[0].key == key {
        RunningWindowBound(next, arrivals[1..], window, max, key, a, b);
      } else {
        NoWindowBound(next, arrivals[1..], window, max, key, a, b);
      }
    }
  }

  /** In any interval no longer than the window, one key is admitted at most twice the limit. */
  lemma {:induction false} AtMostTwiceTheLimit(
    counters: Counters, arrivals: seq<Arrival>, window: nat, max: nat, key: string, a: Time, b: Time)
    requires window > 0 && b - a <= window * 1000
    requires AllExpire(counters) && InOrder(arrivals)
    ensures Admitted(counters, arrivals, window, max, key, a, b) <= 2 * max
    decreases |arrivals|
  {
    if arrivals != [] {
      if arrivals[0].at < a {
        AtMostTwiceTheLimit(After(counters, arrivals[0], window), arrivals[1..], window, max, key, a, b);
      } else if IsLive(counters, a, key) {
        RunningWindowBound(counters, arrivals, window, max, key, a, b);
      } else {
        NoWindowBound(counters, arrivals, window, max, key, a, b);
      }
    }
  }

  /** The number of requests with this key. */
  function ArrivalsOf(arrivals: seq<Arrival>, key: string): nat {
    if arrivals == [] then 0
    else (if arrivals[0].key == key then 1 else 0) + ArrivalsOf(arrivals[1..], key)
  }

  function Min(a: nat, b: nat): nat {
    if a <= b then a else b
  }

  lemma {:induction false} LifetimeFrom(
    counters: Counters, arrivals: seq<Arrival>, window: nat, max: nat, key: string, a: Time, b: Time)
    requires AllExpire(counters) && key in counters && b < counters[key].deadline.value
    requires forall i :: 0 <= i < |arrivals| ==> a <= arrivals[i].at <= b
    ensures Admitted(counters, arrivals, window, max, key, a, b)
         == Min(ArrivalsOf(arrivals, key), Left(counters[key].value, max))
    decreases |arrivals|
  {
    if arrivals != [] {
      LifetimeFrom(After(counters, arrivals[0], window), arrivals[1..], window, max, key, a, b);
    }
  }

  /** Within the lifetime of one counter exactly the first `max` requests are admitted. */
  lemma LifetimeAdmitsExactlyTheLimit(
    counters: Counters, arrivals: seq<Arrival>, window: nat, max: nat, key: string, b: Time)
    requires AllExpire(counters) && arrivals != [] && arrivals[0].key == key
    requires !IsLive(counters, arrivals[0].at, key) && b < arrivals[0].at + window * 1000
    requires forall i :: 0 <= i < |arrivals| ==> arrivals[0].at <= arrivals[i].at <= b
    ensures Admitted(counters, arrivals, window, max, key, arrivals[0].at, b) == Min(ArrivalsOf(arrivals, key), max)
  {
    LifetimeFrom(After(counters, arrivals[0], window), arrivals[1..], window, max, key, arrivals[0].at, b);
  }
}
