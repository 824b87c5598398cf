/**
 * A key-value cache with optional per-key expiry (js/cache_manager.js).
 * The current time, read from the clock in the original, is a parameter
 * `now` of every operation that reads it.
 */
module Cache {
  import opened Values

  /**
   * What `get(key)` returns at time `now`: the stored value when it is
   * truthy and either has no expiry or an expiry after `now`.
   */
  function Lookup(cache: map<string, Json>, ttl: map<string, int>, key: string, now: int): (r: Option<Json>)
    ensures r.Some? <==> key in cache && Truthy(cache[key]) && (key !in ttl || ttl[key] > now)
    ensures r.Some? ==> r.value == cache[key]
  {
    if key in cache && Truthy(cache[key]) && (key !in ttl || ttl[key] > now) then Some(cache[key]) else None
  }

  /** The expiry map after `set(key, _, ttlArg)` at time `now`: only a truthy ttl is recorded. */
  function StoreTtl(ttl: map<string, int>, key: string, ttlArg: Option<int>, now: int): map<string, int> {
    if ttlArg.Some? && ttlArg.value != 0 then ttl[key := now + ttlArg.value] else ttl
  }

  /** The keys whose expiry is at or before `now`. */
  function Expired(ttl: map<string, int>, now: int): (e: set<string>)
    ensures forall k :: k in e <==> k in ttl && ttl[k] <= now
  {
    set k | k in ttl && ttl[k] <= now
  }

  /** A truthy value stored with a ttl is returned at every time before it expires. */
  lemma SetThenGet(cache: map<string, Json>, ttl: map<string, int>, key: string, v: Json, t: int, now: int, later: int)
    requires Truthy(v) && t != 0
    requires later < now + t
    ensures Lookup(cache[key := v], StoreTtl(ttl, key, Some(t), now), key, later) == Some(v)
  {
  }

  /** Storing without a truthy ttl keeps whatever expiry the key had before. */
  lemma SetWithoutTtlKeepsExpiry(cache: map<string, Json>, ttl: map<string, int>, key: string, v: Json, ttlArg: Option<int>, now: int, later: int)
    requires ttlArg.None? || ttlArg == Some(0)
    requires Truthy(v)
    ensures StoreTtl(ttl, key, ttlArg, now) == ttl
    ensures Lookup(cache[key := v], ttl, key, later) == if key in ttl && ttl[key] <= later then None else Some(v)
  {
  }

  /** Storing under one key changes nothing another key reports. */
  lemma SetLeavesOtherKeys(cache: map<string, Json>, ttl: map<string, int>, key: string, v: Json, ttlArg: Option<int>, now: int, other: string, at: int)
    requires other != key
    ensures Lookup(cache[key := v], StoreTtl(ttl, key, ttlArg, now), other, at) == Lookup(cache, ttl, other, at)
  {
  }

  /** A falsy stored value reads as absent. */
  lemma FalsyIsAbsent(cache: map<string, Json>, ttl: map<string, int>, key: string, now: int)
    requires key in cache && !Truthy(cache[key])
    ensures Lookup(cache, ttl, key, now).None?
  {
  }

  /** Once expired, a key stays absent at every later time. */
  lemma ExpiryIsFinal(cache: map<string, Json>, ttl: map<string, int>, key: string, now: int, later: int)
    requires Lookup(cache, ttl, key, now).None? && key in cache && Truthy(cache[key])
    requires now <= later
    ensures Lookup(cache, ttl, key, later).None?
  {
  }

  /**
   * `cleanUp` at `now` is invisible to every read at `now` or later: it only
   * drops entries that such reads already report as absent.
   */
  lemma {:induction false} CleanUpInvisible(cache: map<string, Json>, ttl: map<string, int>, now: int, key: string, later: int)
    requires now <= later
    ensures Lookup(cache - Expired(ttl, now), ttl - Expired(ttl, now), key, later) == Lookup(cache, ttl, key, later)
  {
    var e := Expired(ttl, now);
    if key in e {
      assert key !in cache - e;
    } else {
      assert (key in cache - e) == (key in cache);
      assert (key in ttl - e) == (key in ttl);
      if key in cache {
        assert (cache - e)[key] == cache[key];
      }
      if key in ttl {
        assert (ttl - e)[key] == ttl[key];
      }
    }
  }

  class CacheManager {
    var cache: map<string, Json>
    var ttl: map<string, int>

    constructor ()
      ensures cache == map[] && ttl == map[]
    {
      cache := map[];
      ttl := map[];
    }

    method Get(key: string, now: int) returns (r: Option<Json>)
      ensures r == Lookup(cache, ttl, key, now)
    {
      if key in cache && Truthy(cache[key]) && (key !in ttl || ttl[key] > now) {
        r := Some(cache[key]);
      } else {
        r := None;
      }
    }

    /** `has(key)` holds exactly when `get(key)` returns a value. */
    method Has(key: string, now: int) returns (b: bool)
      ensures b <==> Lookup(cache, ttl, key, now).Some?
    {
      b := key in cache && Truthy(cache[key]) && (key !in ttl || ttl[key] > now);
    }

    method Set(key: string, value: Json, ttlArg: Option<int>, now: int)
      modifies this
      ensures cache == old(cache)[key := value]
      ensures ttl == StoreTtl(old(ttl), key, ttlArg, now)
    {
      cache := cache[key := value];
      if ttlArg.Some? && ttlArg.value != 0 {
        ttl := ttl[key := now + ttlArg.value];
      }
    }

    method Remove(key: string)
      modifies this
      ensures cache == old(cache) - {key} && ttl == old(ttl) - {key}
      ensures forall at :: Lookup(cache, ttl, key, at).None?
    {
      cache := cache - {key};
      ttl := ttl - {key};
    }

    method Clear()
      modifies this
      ensures cache == map[] && ttl == map[]
    {
      cache := map[];
      ttl := map[];
    }

    /** Removes, value and expiry alike, every key whose expiry is at or before `now`. */
    method CleanUp(now: int)
      modifies this
      ensures cache == old(cache) - Expired(old(ttl), now)
      ensures ttl == old(ttl) - Expired(old(ttl), now)
    {
      var keys := ttl.Keys;
      ghost var done: set<string> := {};
      while keys != {}
        invariant keys <= old(ttl).Keys && done == old(ttl).Keys - keys
        invariant cache == old(cache) - Expired(old(ttl), now) * done
        invariant ttl == old(ttl) - Expired(old(ttl), now) * done
        decreases keys
      {
        var key :| key in keys;
        if ttl[key] <= now {
          Remove(key);
        }
        keys := keys - {key};
        done := done + {key};
      }
      assert Expired(old(ttl), now) * done == Expired(old(ttl), now);
    }
  }
}
