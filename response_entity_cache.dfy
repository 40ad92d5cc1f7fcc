/**
 * The gateway's time-bounded response cache (ResponseEntityCache): a map from
 * (url, response type, ordered URI variables) to (timestamp, response), with
 * lazy eviction on read, a prune sweep, selective invalidation and clearing.
 * The clock is an explicit `now` argument; the prune timer is not modelled.
 */
module Cache {
  import opened Http

  /**
   * A positional URI substitution value (an element of the Object... varargs).
   * A number keeps the class it was boxed to (Integer, Long, ...), because
   * equals on boxed numbers of different classes is false even when their
   * values agree.
   */
  datatype UriVariable = Text(text: string) | Number(boxedClass: TypeTag, value: int)

  /**
   * Lombok @Data equality on the key is field-wise, and on the Object[] of URI
   * variables element-wise in order (Arrays.deepEquals, so each element's own
   * equals): with strings and boxed numbers as above, this is datatype equality.
   */
  datatype CacheKey = CacheKey(url: string, responseType: TypeTag, uriVariables: seq<UriVariable>)

  datatype CacheValue = CacheValue(timestamp: int, response: Response)

  type Entries = map<CacheKey, CacheValue>

  const INFINITE_LIFETIME: int := -1
  const ZERO_LIFETIME: int := 0
  const ONE_SECOND_LIFETIME: int := 1000
  const ONE_MINUTE_LIFETIME: int := 60 * ONE_SECOND_LIFETIME
  const FIVE_MINUTES_LIFETIME: int := 5 * ONE_MINUTE_LIFETIME
  const TEN_MINUTES_LIFETIME: int := 10 * ONE_MINUTE_LIFETIME
  const THIRTY_MINUTES_LIFETIME: int := 30 * ONE_MINUTE_LIFETIME
  const ONE_HOUR_LIFETIME: int := 60 * ONE_MINUTE_LIFETIME
  const DEFAULT_LIFETIME: int := ONE_HOUR_LIFETIME
  const DEFAULT_PRUNE_DELAY: int := ONE_HOUR_LIFETIME

  /** An entry is stale when the lifetime is finite and its age exceeds the lifetime. */
  predicate IsExpired(value: CacheValue, lifetime: int, now: int) {
    lifetime != INFINITE_LIFETIME && now - value.timestamp > lifetime
  }

  /** What getCache returns. */
  function Lookup(cache: Entries, lifetime: int, key: CacheKey, now: int): Option<Response> {
    if key in cache && !IsExpired(cache[key], lifetime, now) then Some(cache[key].response) else None
  }

  /** The map after getCache: a stale entry under the key is removed, nothing else changes. */
  function AfterLookup(cache: Entries, lifetime: int, key: CacheKey, now: int): Entries {
    if key in cache && IsExpired(cache[key], lifetime, now) then cache - {key} else cache
  }

  /** Whether removeCache drops an entry: its body's class is the type and the condition holds. */
  predicate Matches(value: CacheValue, responseType: TypeTag, condition: Response -> bool) {
    value.response.body.Some? && value.response.body.value.cls == responseType && condition(value.response)
  }

  /** The map after removeCache. */
  function Unmatched(cache: Entries, responseType: TypeTag, condition: Response -> bool): Entries {
    map k | k in cache && !Matches(cache[k], responseType, condition) :: cache[k]
  }

  /** The map after pruneCache. */
  function Pruned(cache: Entries, lifetime: int, now: int): Entries {
    map k | k in cache && !IsExpired(cache[k], lifetime, now) :: cache[k]
  }

  /** The keys pruneCache removes. */
  function ExpiredKeys(cache: Entries, lifetime: int, now: int): set<CacheKey> {
    set k | k in cache && IsExpired(cache[k], lifetime, now)
  }

  class ResponseEntityCache {
    const name: string
    var cache: Entries
    var lifetime: int
    var pruneDelay: int

    constructor (name: string, lifetime: int, pruneDelay: int)
      ensures this.name == name && this.lifetime == lifetime && this.pruneDelay == pruneDelay
      ensures cache == map[]
    {
      this.name := name;
      this.lifetime := lifetime;
      this.pruneDelay := pruneDelay;
      cache := map[];
    }

    /** The one-argument constructor: default lifetime and prune delay, one hour each. */
    constructor Named(name: string)
      ensures this.name == name && lifetime == DEFAULT_LIFETIME && pruneDelay == DEFAULT_PRUNE_DELAY
      ensures cache == map[]
    {
      this.name := name;
      lifetime := DEFAULT_LIFETIME;
      pruneDelay := DEFAULT_PRUNE_DELAY;
      cache := map[];
    }

    method SetLifetime(lifetime: int)
      modifies this`lifetime
      ensures this.lifetime == lifetime
    {
      this.lifetime := lifetime;
    }

    /** Stores the new delay; restarting the prune timer is not modelled. */
    method SetPruneDelay(pruneDelay: int)
      modifies this`pruneDelay
      ensures this.pruneDelay == pruneDelay
    {
      this.pruneDelay := pruneDelay;
    }

    method GetCache(now: int, url: string, responseType: TypeTag, uriVariables: seq<UriVariable>)
      returns (response: Option<Response>)
      modifies this`cache
      ensures var key := CacheKey(url, responseType, uriVariables);
        && response == Lookup(old(cache), lifetime, key, now)
        && cache == AfterLookup(old(cache), lifetime, key, now)
      ensures var key := CacheKey(url, responseType, uriVariables);
        key !in old(cache) ==> response == None && cache == old(cache)
      ensures var key := CacheKey(url, responseType, uriVariables);
        key in old(cache) && (lifetime == INFINITE_LIFETIME || now - old(cache)[key].timestamp <= lifetime) ==>
          response == Some(old(cache)[key].response) && cache == old(cache)
      ensures var key := CacheKey(url, responseType, uriVariables);
        key in old(cache) && lifetime != INFINITE_LIFETIME && now - old(cache)[key].timestamp > lifetime ==>
          response == None && cache == old(cache) - {key}
    {
      var key := CacheKey(url, responseType, uriVariables);
      response := None;
      if key in cache {
        var value := cache[key];
        var age := now - value.timestamp;
        if lifetime != INFINITE_LIFETIME && age > lifetime {
          cache := cache - {key};
          response := None;
        } else {
          response := Some(value.response);
        }
      }
    }

    method PutCache(now: int, url: string, responseType: TypeTag, response: Response, uriVariables: seq<UriVariable>)
      modifies this`cache
      ensures cache == old(cache)[CacheKey(url, responseType, uriVariables) := CacheValue(now, response)]
    {
      var key := CacheKey(url, responseType, uriVariables);
      cache := cache[key := CacheValue(now, response)];
    }

    /** Line 126 dereferences every stored body, so every stored response must have one. */
    method RemoveCache(responseType: TypeTag, condition: Response -> bool)
      requires forall k :: k in cache ==> cache[k].response.body.Some?
      modifies this`cache
      ensures cache == Unmatched(old(cache), responseType, condition)
    {
      ghost var original := cache;
      var pending := cache.Keys;
      while pending != {}
        invariant pending <= original.Keys
        invariant cache == map k | k in original && (k in pending || !Matches(original[k], responseType, condition)) :: original[k]
        decreases pending
      {
        var key :| key in pending;
        var value := cache[key];
        if value.response.body.value.cls == responseType && condition(value.response) {
          cache := cache - {key};
        }
        pending := pending - {key};
      }
    }

    method ClearCache()
      modifies this`cache
      ensures cache == map[]
    {
      cache := map[];
    }

    /** One sweep; `count` is the number it reports as removed. */
    method PruneCache(now: int) returns (count: nat)
      modifies this`cache
      ensures cache == Pruned(old(cache), lifetime, now)
      ensures count == |ExpiredKeys(old(cache), lifetime, now)|
      ensures lifetime == INFINITE_LIFETIME ==> cache == old(cache) && count == 0
    {
      if lifetime == INFINITE_LIFETIME {
        InfiniteLifetimePrunesNothing(cache, now);
        return 0;
      }
      ghost var original := cache;
      var pending := cache.Keys;
      count := 0;
      while pending != {}
        invariant pending <= original.Keys
        invariant cache == Swept(original, pending, lifetime, now)
        invariant count == |ExpiredKeys(original, lifetime, now) - pending|
        decreases pending
      {
        var key :| key in pending;
        var value := cache[key];
        var age := now - value.timestamp;
        SweepStep(ExpiredKeys(original, lifetime, now), pending, key);
        SweptStep(original, pending, key, lifetime, now);
        if age > lifetime {
          cache := cache - {key};
          count := count + 1;
        }
        pending := pending - {key};
      }
      assert Swept(original, {}, lifetime, now) == Pruned(original, lifetime, now);
    }
  }

  /** The map part-way through a sweep: keys still pending are kept, visited ones only when fresh. */
  function Swept(original: Entries, pending: set<CacheKey>, lifetime: int, now: int): Entries {
    map k | k in original && (k in pending || !IsExpired(original[k], lifetime, now)) :: original[k]
  }

  lemma SweptStep(original: Entries, pending: set<CacheKey>, key: CacheKey, lifetime: int, now: int)
    requires key in pending && key in original
    ensures Swept(original, pending - {key}, lifetime, now) ==
      if IsExpired(original[key], lifetime, now) then Swept(original, pending, lifetime, now) - {key}
      else Swept(original, pending, lifetime, now)
  {
  }

  /** Visiting one pending key of a sweep adds it to the removed set exactly when it is stale. */
  lemma SweepStep(expired: set<CacheKey>, pending: set<CacheKey>, key: CacheKey)
    requires key in pending
    ensures key in expired ==> |expired - (pending - {key})| == |expired - pending| + 1
    ensures key !in expired ==> expired - (pending - {key}) == expired - pending
  {
    if key in expired {
      assert expired - (pending - {key}) == (expired - pending) + {key};
    }
  }

  // Properties of the specification functions.

  /** A stored response is returned at once, and for as long as its age stays within the lifetime. */
  lemma PutThenGet(cache: Entries, lifetime: int, key: CacheKey, stored: int, now: int, response: Response)
    requires lifetime == INFINITE_LIFETIME || now - stored <= lifetime
    ensures Lookup(cache[key := CacheValue(stored, response)], lifetime, key, now) == Some(response)
    ensures AfterLookup(cache[key := CacheValue(stored, response)], lifetime, key, now) == cache[key := CacheValue(stored, response)]
  {
  }

  /** Once the age exceeds a finite lifetime, the read misses and removes exactly that key. */
  lemma PutThenExpire(cache: Entries, lifetime: int, key: CacheKey, stored: int, now: int, response: Response)
    requires lifetime != INFINITE_LIFETIME && now - stored > lifetime
    ensures Lookup(cache[key := CacheValue(stored, response)], lifetime, key, now) == None
    ensures AfterLookup(cache[key := CacheValue(stored, response)], lifetime, key, now) == cache - {key}
  {
  }

  /** Storing under one key leaves every other key's lookup as it was. */
  lemma PutIsolatesOtherKeys(cache: Entries, lifetime: int, key: CacheKey, other: CacheKey, stored: int, now: int, response: Response)
    requires other != key
    ensures Lookup(cache[key := CacheValue(stored, response)], lifetime, other, now) == Lookup(cache, lifetime, other, now)
  {
  }

  /**
   * A response stored under an Integer URI variable is not found under a Long
   * of the same value: the two boxed numbers are different keys.
   */
  lemma BoxedClassSeparatesKeys(cache: Entries, lifetime: int, url: string, responseType: TypeTag, n: int,
                                stored: int, now: int, response: Response)
    requires CacheKey(url, responseType, [Number("java.lang.Long", n)]) !in cache
    ensures var asInteger := CacheKey(url, responseType, [Number("java.lang.Integer", n)]);
      var asLong := CacheKey(url, responseType, [Number("java.lang.Long", n)]);
      Lookup(cache[asInteger := CacheValue(stored, response)], lifetime, asLong, now) == None
  {
    var asInteger := CacheKey(url, responseType, [Number("java.lang.Integer", n)]);
    var asLong := CacheKey(url, responseType, [Number("java.lang.Long", n)]);
    assert asInteger.uriVariables[0] != asLong.uriVariables[0];
    PutIsolatesOtherKeys(cache, lifetime, asInteger, asLong, stored, now, response);
  }

  /** An infinite lifetime disables lazy eviction and the sweep. */
  lemma InfiniteLifetimePrunesNothing(cache: Entries, now: int)
    ensures Pruned(cache, INFINITE_LIFETIME, now) == cache
    ensures ExpiredKeys(cache, INFINITE_LIFETIME, now) == {}
    ensures forall k :: Lookup(cache, INFINITE_LIFETIME, k, now) == (if k in cache then Some(cache[k].response) else None)
  {
    assert Pruned(cache, INFINITE_LIFETIME, now).Keys == cache.Keys;
  }

  /** After a sweep no stale entry is left, and every fresh entry is kept with its value. */
  lemma PrunedKeepsExactlyFresh(cache: Entries, lifetime: int, now: int)
    ensures forall k :: k in Pruned(cache, lifetime, now) ==> !IsExpired(Pruned(cache, lifetime, now)[k], lifetime, now)
    ensures forall k :: k in cache && !IsExpired(cache[k], lifetime, now) ==>
      k in Pruned(cache, lifetime, now) && Pruned(cache, lifetime, now)[k] == cache[k]
    ensures Pruned(cache, lifetime, now).Keys == cache.Keys - ExpiredKeys(cache, lifetime, now)
  {
  }

  /** The count a sweep reports is the number of entries it removed. */
  lemma PruneCountIsRemoved(cache: Entries, lifetime: int, now: int)
    ensures |ExpiredKeys(cache, lifetime, now)| == |cache| - |Pruned(cache, lifetime, now)|
  {
    var expired := ExpiredKeys(cache, lifetime, now);
    var kept := Pruned(cache, lifetime, now).Keys;
    assert kept == cache.Keys - expired;
    assert expired <= cache.Keys;
    assert cache.Keys == kept + expired;
    assert kept !! expired;
    assert |cache.Keys| == |kept| + |expired|;
  }

  /** removeCache drops exactly the matching entries and keeps every other one unchanged. */
  lemma UnmatchedKeepsExactlyOthers(cache: Entries, responseType: TypeTag, condition: Response -> bool)
    ensures forall k :: k in Unmatched(cache, responseType, condition) <==> k in cache && !Matches(cache[k], responseType, condition)
    ensures forall k :: k in Unmatched(cache, responseType, condition) ==> Unmatched(cache, responseType, condition)[k] == cache[k]
  {
  }
}
