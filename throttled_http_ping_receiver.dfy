/**
 * `ThrottledHttpPingReceiver`: an `HttpPingReceiver` that pings at most
 * once per window. The time of the last ping is kept in a cache; a ping
 * requested while the cached time is less than `throttleTtl` seconds old
 * is reported ok without running the check.
 */
module ThrottledHttpPingReceivers {
  import opened Php
  import opened Results
  import opened HttpPingReceivers

  /** Cache entries are addressed by namespace and key. */
  type CacheKey = (string, string)

  /** The stored value and the time after which it has expired. */
  datatype CacheEntry = CacheEntry(data: Value, expiresAt: int)

  /** The storage behind the cache, shared with whoever else uses it. */
  class CacheStorage {
    var entries: map<CacheKey, CacheEntry>

    constructor ()
      ensures entries == map[]
    {
      entries := map[];
    }
  }

  /** `load($key)`: the stored value while it has not expired (expiry strictly before now). */
  function Load(entries: map<CacheKey, CacheEntry>, key: CacheKey, now: int): (v: Option<Value>)
    ensures v.Some? <==> key in entries && now <= entries[key].expiresAt
    ensures v.Some? ==> v.value == entries[key].data
  {
    if key in entries && now <= entries[key].expiresAt then Some(entries[key].data) else None
  }

  /**
   * How the cache behaves on this call: it works, or one of its steps
   * throws (reading, locking before the callback, writing after it), or it
   * returns without invoking the callback.
   */
  datatype CacheBehaviour = Reliable | LoadThrows | LockThrows | CallbackSkipped | WriteThrows

  /** `is_int($lastPing) && ($now - $lastPing) < $throttleTtl`. */
  predicate WithinWindow(lastPing: Option<Value>, now: int, ttl: int) {
    lastPing.Some? && lastPing.value.VInt? && now - lastPing.value.i < ttl
  }

  /** One call: its result, the cache entries afterwards, and whether the inner receiver ran. */
  datatype Step = Step(result: PingResult, entries: map<CacheKey, CacheEntry>, pinged: bool)

  /**
   * What one `pingUsing` does at time `now`. When the inner receiver runs,
   * the entry becomes the time `now`, expiring `ttl` seconds later, whatever
   * the ping reported. Anything the cache throws is a failed ping.
   */
  function Throttle(ttl: int, key: CacheKey, inner: HttpPingReceiver, entries: map<CacheKey, CacheEntry>,
                    now: int, cache: CacheBehaviour, produced: Outcome<Result>, net: Network): (step: Step)
    ensures step.pinged ==> cache != LoadThrows && !WithinWindow(Load(entries, key, now), now, ttl)
    ensures !step.pinged ==> step.entries == entries
  {
    if cache == LoadThrows then Step(PingResult(false), entries, false)
    else if WithinWindow(Load(entries, key, now), now, ttl) then Step(PingResult(true), entries, false)
    else match cache
      case LockThrows => Step(PingResult(false), entries, false)
      case CallbackSkipped => Step(PingResult(true), entries, false)
      case WriteThrows => Step(PingResult(false), entries, true)
      case _ => Step(HttpPing(inner, produced, net), entries[key := CacheEntry(VInt(now), now + ttl)], true)
  }

  class ThrottledHttpPingReceiver {
    const storage: CacheStorage
    const throttleTtl: int
    const cacheKey: string
    const cacheNamespace: string
    const inner: HttpPingReceiver

    /** The inner receiver gets the endpoint settings; the cache gets the storage and the namespace. */
    constructor (storage: CacheStorage, throttleTtl: int, cacheKey: string, url: string, httpMethod: string,
                 headers: seq<string>, timeout: int, cacheNamespace: string, extra: seq<(string, Value)>)
      ensures this.storage == storage && this.throttleTtl == throttleTtl && this.cacheKey == cacheKey
      ensures this.cacheNamespace == cacheNamespace
      ensures inner == HttpPingReceiver(url, httpMethod, headers, timeout, extra)
    {
      this.storage := storage;
      this.throttleTtl := throttleTtl;
      this.cacheKey := cacheKey;
      this.cacheNamespace := cacheNamespace;
      this.inner := HttpPingReceiver(url, httpMethod, headers, timeout, extra);
    }

    /** `new ThrottledHttpPingReceiver($storage, $ttl, $key, $url)`: POST, no headers, 5 seconds, own namespace. */
    static method Create(storage: CacheStorage, throttleTtl: int, cacheKey: string, url: string)
      returns (t: ThrottledHttpPingReceiver)
      ensures fresh(t) && t.storage == storage && t.throttleTtl == throttleTtl && t.cacheKey == cacheKey
      ensures t.cacheNamespace == "ThrottledHttpPingReceiver" && t.inner == NewHttpPingReceiver(url)
    {
      t := new ThrottledHttpPingReceiver(storage, throttleTtl, cacheKey, url, "POST", [], 5,
                                         "ThrottledHttpPingReceiver", []);
    }

    function Key(): CacheKey {
      (cacheNamespace, cacheKey)
    }

    /** `pingUsing($closure)` at time `now`, with the cache behaving as `cache`. */
    method PingUsing(closure: Closure, now: int, net: Network, cache: CacheBehaviour) returns (r: PingResult)
      modifies storage
      ensures var step := Throttle(throttleTtl, Key(), inner, old(storage.entries), now, cache, closure(), net);
        r == step.result && storage.entries == step.entries
    {
      if cache == LoadThrows {
        return PingResult(false);
      }
      var lastPing := Load(storage.entries, Key(), now);
      if lastPing.Some? && lastPing.value.VInt? && now - lastPing.value.i < throttleTtl {
        return PingResult(true);
      }
      var result: Option<PingResult> := None;
      if cache == LockThrows {
        return PingResult(false);
      }
      if cache != CallbackSkipped {
        var pinged := HttpPingReceivers.PingUsing(inner, closure, net);
        result := Some(pinged);
        if cache == WriteThrows {
          return PingResult(false);
        }
        storage.entries := storage.entries[Key() := CacheEntry(VInt(now), now + throttleTtl)];
      }
      if result.None? {
        return PingResult(true);
      }
      return result.value;
    }
  }

  // ---------------------------------------------------------------------
  // Properties
  // ---------------------------------------------------------------------

  /** Within the window the ping is ok, the check does not run and the cache is left alone. */
  lemma ThrottledCallSkipsPing(ttl: int, key: CacheKey, inner: HttpPingReceiver, entries: map<CacheKey, CacheEntry>,
                               now: int, cache: CacheBehaviour, produced: Outcome<Result>, net: Network)
    requires cache != LoadThrows && WithinWindow(Load(entries, key, now), now, ttl)
    ensures var step := Throttle(ttl, key, inner, entries, now, cache, produced, net);
      step.result.ok && step.entries == entries && !step.pinged
  {
  }

  /** Outside the window a working cache pings, and records the time whether or not the ping was ok. */
  lemma UnthrottledCallPingsAndRecords(ttl: int, key: CacheKey, inner: HttpPingReceiver,
                                       entries: map<CacheKey, CacheEntry>, now: int,
                                       produced: Outcome<Result>, net: Network)
    requires !WithinWindow(Load(entries, key, now), now, ttl)
    ensures var step := Throttle(ttl, key, inner, entries, now, Reliable, produced, net);
      && step.pinged
      && step.result == HttpPing(inner, produced, net)
      && step.entries == entries[key := CacheEntry(VInt(now), now + ttl)]
  {
  }

  /** A cached value that is not an integer never throttles. */
  lemma NonIntegerEntryDoesNotThrottle(entries: map<CacheKey, CacheEntry>, key: CacheKey, now: int, ttl: int)
    requires key in entries && !entries[key].data.VInt?
    ensures !WithinWindow(Load(entries, key, now), now, ttl)
  {
  }

  /** Any failure of the cache outside the window is reported as a failed ping. */
  lemma CacheFailureIsNotOk(ttl: int, key: CacheKey, inner: HttpPingReceiver, entries: map<CacheKey, CacheEntry>,
                            now: int, cache: CacheBehaviour, produced: Outcome<Result>, net: Network)
    requires cache == LoadThrows || (cache in {LockThrows, WriteThrows} && !WithinWindow(Load(entries, key, now), now, ttl))
    ensures !Throttle(ttl, key, inner, entries, now, cache, produced, net).result.ok
  {
  }

  /**
   * A ping recorded at `t0` throttles every later request up to, but not
   * including, `t0 + ttl`, whatever the first ping reported and whatever
   * the later check would produce.
   */
  lemma SecondPingWithinWindowIsThrottled(ttl: int, key: CacheKey, inner: HttpPingReceiver,
                                          entries: map<CacheKey, CacheEntry>, t0: int, t1: int,
                                          first: Outcome<Result>, second: Outcome<Result>, net: Network,
                                          cache: CacheBehaviour)
    requires !WithinWindow(Load(entries, key, t0), t0, ttl)
    requires t0 <= t1 < t0 + ttl && cache != LoadThrows
    ensures var s0 := Throttle(ttl, key, inner, entries, t0, Reliable, first, net);
      var s1 := Throttle(ttl, key, inner, s0.entries, t1, cache, second, net);
      s1.result.ok && !s1.pinged && s1.entries == s0.entries
  {
    var s0 := Throttle(ttl, key, inner, entries, t0, Reliable, first, net);
    assert Load(s0.entries, key, t1) == Some(VInt(t0));
  }

  /** From `t0 + ttl` on, the recorded ping no longer throttles, so a working cache pings again. */
  lemma WindowEndsAfterTtl(ttl: int, key: CacheKey, inner: HttpPingReceiver,
                           entries: map<CacheKey, CacheEntry>, t0: int, t1: int,
                           first: Outcome<Result>, second: Outcome<Result>, net: Network)
    requires !WithinWindow(Load(entries, key, t0), t0, ttl)
    requires t1 >= t0 + ttl
    ensures var s0 := Throttle(ttl, key, inner, entries, t0, Reliable, first, net);
      var s1 := Throttle(ttl, key, inner, s0.entries, t1, Reliable, second, net);
      s1.pinged && s1.result == HttpPing(inner, second, net)
  {
    var s0 := Throttle(ttl, key, inner, entries, t0, Reliable, first, net);
    assert s0.entries[key] == CacheEntry(VInt(t0), t0 + ttl);
  }

  /** Other entries of the storage are never touched. */
  lemma OnlyOwnEntryChanges(ttl: int, key: CacheKey, inner: HttpPingReceiver, entries: map<CacheKey, CacheEntry>,
                            now: int, cache: CacheBehaviour, produced: Outcome<Result>, net: Network, other: CacheKey)
    requires other != key
    ensures var step := Throttle(ttl, key, inner, entries, now, cache, produced, net);
      (other in step.entries <==> other in entries) && (other in entries ==> step.entries[other] == entries[other])
  {
  }
}
