/**
  The shared read-through cache behind `getCache` and `delCache`.  Its
  implementation is not part of this model, so it is modelled by its
  contract: a map from (prefix, key) pairs to entries holding a value and an
  absolute expiry time, a clock, and a log of the operations the handlers
  perform on it.
 */
module Cache {
  import opened Domain

  /** The composite key: `prefix` names the kind of aggregate, `key` its
      owner.  Distinct pairs are distinct keys, so no two prefixes or owners
      can collide. */
  datatype CacheKey = CacheKey(prefix: string, key: string)

  /** A stored value and the time (in seconds) at which it stops being live. */
  datatype Entry<V> = Entry(value: V, expiresAt: int)

  type Store<V> = map<CacheKey, Entry<V>>

  /** One step a handler's request takes on the cache: consulting an entry,
      invoking the fetch function on a miss, storing the fetched value,
      deleting an entry. */
  datatype CacheOp = Get(k: CacheKey) | Fetch(k: CacheKey) | Set(k: CacheKey) | Del(k: CacheKey)

  /** An entry is live while the clock is before its expiry time; once the
      clock reaches it the entry counts as absent. */
  predicate Live<V(==)>(s: Store<V>, now: int, k: CacheKey) {
    k in s && now < s[k].expiresAt
  }

  /** `k` holds the same entry, or no entry, in both stores. */
  predicate Agree<V(==)>(s: Store<V>, t: Store<V>, k: CacheKey) {
    (k in s <==> k in t) && (k in s ==> s[k] == t[k])
  }

  /** No entry expires more than `ttl` seconds after `now`.  Every write a
      read makes sets its entry to expire `ttl` seconds after the write, so a
      cache that all reads use with a ttl of at most `ttl` keeps this, and then
      every live entry was written less than `ttl` seconds ago. */
  predicate FreshStore<V(==)>(s: Store<V>, now: int, ttl: int) {
    forall k :: k in s ==> s[k].expiresAt <= now + ttl
  }

  /** What one `getCache` call yields, leaves behind and does. */
  datatype Read<V> = Read(result: Outcome<V>, store: Store<V>, ops: seq<CacheOp>)

  /** `getCache` on entry `k` at time `now`; `fetch` is what the fetch
      function yields if it is invoked. */
  function ReadThrough<V(==)>(s: Store<V>, now: int, k: CacheKey, ttl: int, fetch: Outcome<V>): (r: Read<V>)
    requires ttl > 0
    // the entry is consulted first, and nothing but that entry is touched
    ensures |r.ops| > 0 && r.ops[0] == Get(k)
    ensures forall op :: op in r.ops ==> op.k == k
    ensures forall k' :: k' != k ==> Agree(s, r.store, k')
    // the fetch function runs exactly on a miss, and its outcome is then the result
    ensures Fetch(k) in r.ops <==> !Live(s, now, k)
    ensures !Live(s, now, k) ==> r.result == fetch
    // a hit returns the stored value and writes nothing
    ensures Live(s, now, k) ==> r.result == Ok(s[k].value) && r.store == s
    // a failure is never stored
    ensures r.result.Fail? ==> r.store == s && Set(k) !in r.ops
    // after a successful read the entry is live and holds the returned value
    ensures r.result.Ok? ==> Live(r.store, now, k) && r.store[k].value == r.result.value
    // the only possible write is a fresh entry that expires ttl seconds from now
    ensures r.store != s ==> Set(k) in r.ops && r.store[k].expiresAt == now + ttl
  {
    if Live(s, now, k) then
      Read(Ok(s[k].value), s, [Get(k)])
    else if fetch.Ok? then
      Read(fetch, s[k := Entry(fetch.value, now + ttl)], [Get(k), Fetch(k), Set(k)])
    else
      Read(fetch, s, [Get(k), Fetch(k)])
  }

  /** `delCache`: remove the entry at `k`; a no-op when there is none. */
  function Invalidate<V(==)>(s: Store<V>, k: CacheKey): (r: Store<V>)
    ensures k !in r
    ensures forall k' :: k' != k ==> Agree(s, r, k')
  {
    s - {k}
  }

  /** Successive `delCache` calls for `key` under each prefix in turn. */
  function InvalidateAll<V(==)>(s: Store<V>, key: string, prefixes: seq<string>): (r: Store<V>)
    ensures forall k :: k in r <==> k in s && !(k.key == key && k.prefix in prefixes)
    ensures forall k :: k in r ==> r[k] == s[k]
    decreases |prefixes|
  {
    if prefixes == [] then s
    else InvalidateAll(Invalidate(s, CacheKey(prefixes[0], key)), key, prefixes[1..])
  }

  /** Invalidating a list of prefixes is invalidating its first and then the rest. */
  lemma InvalidateAllCons<V>(s: Store<V>, key: string, p: string, ps: seq<string>)
    ensures InvalidateAll(s, key, [p] + ps) == InvalidateAll(Invalidate(s, CacheKey(p, key)), key, ps)
  {
    assert ([p] + ps)[1..] == ps;
  }

  /** Two successive `delCache` calls invalidate the two-prefix list. */
  lemma InvalidateAllTwo<V>(s: Store<V>, key: string, p: string, q: string)
    ensures InvalidateAll(s, key, [p, q]) == Invalidate(Invalidate(s, CacheKey(p, key)), CacheKey(q, key))
  {
    InvalidateAllCons(s, key, p, [q]);
    InvalidateAllCons(Invalidate(s, CacheKey(p, key)), key, q, []);
  }

  /** The operations those successive `delCache` calls log. */
  function DelOps(key: string, prefixes: seq<string>): (ops: seq<CacheOp>)
    ensures |ops| == |prefixes|
    ensures forall i :: 0 <= i < |prefixes| ==> ops[i] == Del(CacheKey(prefixes[i], key))
    decreases |prefixes|
  {
    if prefixes == [] then [] else [Del(CacheKey(prefixes[0], key))] + DelOps(key, prefixes[1..])
  }

  /** The cache as a piece of shared state: its entries, its clock and the
      log of the operations performed on it. */
  class CacheStore<V(==)> {
    var store: Store<V>
    var now: int
    var ops: seq<CacheOp>

    /** The cache starts out empty at time `clock`. */
    constructor (clock: int)
      ensures store == map[] && now == clock && ops == []
      ensures forall ttl :: FreshStore(store, now, ttl)
    {
      store := map[];
      now := clock;
      ops := [];
    }

    /** `getCache({ key, prefix, ttl, fetchFn })`. */
    method GetCache(key: string, prefix: string, ttl: int, fetch: Outcome<V>) returns (r: Outcome<V>)
      requires ttl > 0
      modifies this
      ensures var rt := ReadThrough(old(store), old(now), CacheKey(prefix, key), ttl, fetch);
        r == rt.result && store == rt.store && ops == old(ops) + rt.ops
      ensures now == old(now)
      ensures forall t :: ttl <= t && FreshStore(old(store), now, t) ==> FreshStore(store, now, t)
    {
      var k := CacheKey(prefix, key);
      ops := ops + [Get(k)];
      if k in store && now < store[k].expiresAt {
        r := Ok(store[k].value);
      } else {
        ops := ops + [Fetch(k)];
        r := fetch;
        if fetch.Ok? {
          store := store[k := Entry(fetch.value, now + ttl)];
          ops := ops + [Set(k)];
        }
      }
    }

    /** `delCache({ key, prefix })`. */
    method DelCache(key: string, prefix: string)
      modifies this
      ensures store == Invalidate(old(store), CacheKey(prefix, key))
      ensures ops == old(ops) + [Del(CacheKey(prefix, key))]
      ensures now == old(now)
      ensures forall t :: FreshStore(old(store), now, t) ==> FreshStore(store, now, t)
    {
      var k := CacheKey(prefix, key);
      store := store - {k};
      ops := ops + [Del(k)];
    }

    /** Time passes between requests. */
    method Advance(seconds: nat)
      modifies this
      ensures now == old(now) + seconds
      ensures store == old(store) && ops == old(ops)
      ensures forall t :: FreshStore(store, old(now), t) ==> FreshStore(store, now, t)
    {
      now := now + seconds;
    }
  }

  // Properties relating several cache calls.

  /** A successful read followed, before the entry expires, by another read of
      the same entry returns the same value without invoking the fetch
      function again, whatever that function would now yield. */
  lemma RepeatedReadHits<V>(s: Store<V>, now: int, later: int, k: CacheKey, ttl: int, f1: Outcome<V>, f2: Outcome<V>)
    requires ttl > 0
    requires ReadThrough(s, now, k, ttl, f1).result.Ok?
    requires now <= later < ReadThrough(s, now, k, ttl, f1).store[k].expiresAt
    ensures var r1 := ReadThrough(s, now, k, ttl, f1);
      var r2 := ReadThrough(r1.store, later, k, ttl, f2);
      r2.result == r1.result && Fetch(k) !in r2.ops && r2.store == r1.store
  {
  }

  /** After `delCache` on an entry, the next read of it always invokes the
      fetch function and returns what the fetch yields. */
  lemma InvalidateForcesFetch<V>(s: Store<V>, now: int, k: CacheKey, ttl: int, f: Outcome<V>)
    requires ttl > 0
    ensures var r := ReadThrough(Invalidate(s, k), now, k, ttl, f);
      Fetch(k) in r.ops && r.result == f
  {
  }

  /** A failed fetch is propagated and not cached: a later read of the same
      entry invokes the fetch function again. */
  lemma FailureNotCached<V>(s: Store<V>, now: int, later: int, k: CacheKey, ttl: int, e: ServiceError, f2: Outcome<V>)
    requires ttl > 0 && now <= later
    requires !Live(s, now, k)
    ensures var r1 := ReadThrough(s, now, k, ttl, Fail(e));
      var r2 := ReadThrough(r1.store, later, k, ttl, f2);
      r1.result == Fail(e) && Fetch(k) in r2.ops && r2.result == f2
  {
  }

  /** Reads, invalidations and the passing of time keep a cache fresh for
      any bound at least the reads' ttl. */
  lemma FreshnessKept<V>(s: Store<V>, now: int, later: int, k: CacheKey, ttl: int, t: int, f: Outcome<V>)
    requires 0 < ttl <= t && now <= later
    requires FreshStore(s, now, t)
    ensures FreshStore(ReadThrough(s, now, k, ttl, f).store, now, t)
    ensures FreshStore(Invalidate(s, k), now, t)
    ensures forall key, ps :: FreshStore(InvalidateAll(s, key, ps), now, t)
    ensures FreshStore(s, later, t)
  {
  }

  /** On a fresh cache a read that succeeds returns a value written less than
      `ttl` seconds ago: its entry is live now and expires at most `ttl`
      seconds from now. */
  lemma ReadNoOlderThanTtl<V>(s: Store<V>, now: int, k: CacheKey, ttl: int, f: Outcome<V>)
    requires ttl > 0 && FreshStore(s, now, ttl)
    requires ReadThrough(s, now, k, ttl, f).result.Ok?
    ensures var r := ReadThrough(s, now, k, ttl, f);
      now < r.store[k].expiresAt <= now + ttl
  {
  }

  /** Expiry is honoured: on a fresh cache, once `ttl` seconds have passed
      since a successful read, the next read of that entry invokes the fetch
      function again and returns what it yields. */
  lemma ExpiryHonoured<V>(s: Store<V>, now: int, later: int, k: CacheKey, ttl: int, f1: Outcome<V>, f2: Outcome<V>)
    requires ttl > 0 && FreshStore(s, now, ttl)
    requires ReadThrough(s, now, k, ttl, f1).result.Ok?
    requires now + ttl <= later
    ensures var r1 := ReadThrough(s, now, k, ttl, f1);
      var r2 := ReadThrough(r1.store, later, k, ttl, f2);
      Fetch(k) in r2.ops && r2.result == f2
  {
  }

  /** The same owner under two prefixes has two independent entries: reading
      or invalidating one leaves the other as it was. */
  lemma PrefixesIndependent<V>(s: Store<V>, now: int, key: string, p: string, q: string, ttl: int, f: Outcome<V>)
    requires ttl > 0 && p != q
    ensures Agree(s, ReadThrough(s, now, CacheKey(p, key), ttl, f).store, CacheKey(q, key))
    ensures Agree(s, Invalidate(s, CacheKey(p, key)), CacheKey(q, key))
  {
  }
}
