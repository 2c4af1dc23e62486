/**
 * `UserCacheService.getUserId`: a cache-aside resolver from Telegram user ids
 * to internal user ids. The memcached client is a map from keys to stored
 * texts, in which an entry is present or absent (expiry is not modelled); the
 * user service is the create-or-fetch directory of module Users. Both
 * collaborators log their calls so that "called once" and "not called" can be
 * stated.
 */
module UserCache {
  import opened Wrappers
  import opened Decimal
  import opened Users

  /** Expiry, in seconds, given to every entry the resolver writes. */
  const OneHourTtl: nat := 60 * 60

  const KeyPrefix: string := "user:"

  /** One `cache.set(key, value, {expires})` call. */
  datatype CacheWrite = CacheWrite(key: string, value: string, expires: nat)

  /** The state getUserId reads and changes: both collaborators and their call logs. */
  datatype Backend = Backend(
    cache: map<string, string>,
    users: Directory,
    resolverCalls: seq<TransportId>,
    cacheWrites: seq<CacheWrite>)

  /** Every stored text is a decimal digit string, the only kind of text this model parses. */
  predicate WellFormed(cache: map<string, string>) {
    forall k | k in cache :: IsDecimal(cache[k])
  }

  /** The cache key of a Telegram user: `"user:" + String(telegramId)`. */
  function CacheKey(tid: TransportId): string {
    KeyPrefix + Show(tid)
  }

  /** The key starts with the prefix and the rest of it reads back as the id. */
  lemma CacheKeyDecodes(tid: TransportId)
    ensures |CacheKey(tid)| > |KeyPrefix| && CacheKey(tid)[..|KeyPrefix|] == KeyPrefix
    ensures AllDigits(CacheKey(tid)[|KeyPrefix|..]) && Parse(CacheKey(tid)[|KeyPrefix|..]) == tid
  {
    assert CacheKey(tid)[|KeyPrefix|..] == Show(tid);
    ParseShow(tid);
  }

  /** Distinct Telegram users never share a cache entry. */
  lemma CacheKeyInjective(a: TransportId, b: TransportId)
    requires CacheKey(a) == CacheKey(b)
    ensures a == b
  {
    CacheKeyDecodes(a);
    CacheKeyDecodes(b);
  }

  /** `getUserId(tid)`: what it returns and the state it leaves behind. */
  function Lookup(b: Backend, tid: TransportId): (r: (InternalId, Backend))
    requires WellFormed(b.cache)
    ensures WellFormed(r.1.cache)
  {
    var key := CacheKey(tid);
    if key in b.cache then
      (Parse(b.cache[key]), b)
    else
      var (id, users') := GetOrCreate(b.users, tid);
      (id, b.(users := users',
              resolverCalls := b.resolverCalls + [tid],
              cache := b.cache[key := Show(id)],
              cacheWrites := b.cacheWrites + [CacheWrite(key, Show(id), OneHourTtl)]))
  }

  /** On a hit the stored text, read as a number, is the answer, and nobody else is called. */
  lemma LookupHit(b: Backend, tid: TransportId)
    requires WellFormed(b.cache) && CacheKey(tid) in b.cache
    ensures Lookup(b, tid).0 == Parse(b.cache[CacheKey(tid)])
    ensures Lookup(b, tid).1 == b
  {
  }

  /**
   * On a miss the resolver is called exactly once, with the Telegram id; its
   * answer is returned; and the one cache write stores that answer under the
   * key for one hour, leaving every other key as it was.
   */
  lemma LookupMiss(b: Backend, tid: TransportId)
    requires WellFormed(b.cache) && CacheKey(tid) !in b.cache
    ensures var (id, b') := Lookup(b, tid);
      && (id, b'.users) == GetOrCreate(b.users, tid)
      && b'.resolverCalls == b.resolverCalls + [tid]
      && b'.cacheWrites == b.cacheWrites + [CacheWrite(CacheKey(tid), Show(id), OneHourTtl)]
      && CacheKey(tid) in b'.cache && b'.cache[CacheKey(tid)] == Show(id)
      && (forall k | k != CacheKey(tid) :: (k in b'.cache <==> k in b.cache))
      && (forall k | k in b.cache :: b'.cache[k] == b.cache[k])
  {
  }

  /** On a hit the directory is never consulted: whatever it now holds, the cached id is returned. */
  lemma LookupTrustsCache(b: Backend, tid: TransportId, d: Directory)
    requires WellFormed(b.cache) && CacheKey(tid) in b.cache
    ensures Lookup(b.(users := d), tid).0 == Lookup(b, tid).0
    ensures Lookup(b.(users := d), tid).1 == b.(users := d)
  {
  }

  /** A second lookup of the same id hits the cache: same answer, nothing called, nothing written. */
  lemma SecondLookupHits(b: Backend, tid: TransportId)
    requires WellFormed(b.cache)
    ensures var (id, b') := Lookup(b, tid); Lookup(b', tid) == (id, b')
  {
    var key := CacheKey(tid);
    if key !in b.cache {
      ParseShow(Lookup(b, tid).0);
    }
  }

  /** From an empty cache, two lookups agree and the resolver is called only by the first. */
  lemma TwoLookupsFromEmptyCache(b: Backend, tid: TransportId)
    requires b.cache == map[]
    ensures var (id1, b1) := Lookup(b, tid); var (id2, b2) := Lookup(b1, tid);
      && id1 == id2 == GetOrCreate(b.users, tid).0
      && b2.resolverCalls == b.resolverCalls + [tid]
      && |b2.cacheWrites| == |b.cacheWrites| + 1
  {
    SecondLookupHits(b, tid);
  }

  /** Every entry under a user key holds that user's id in the directory. */
  ghost predicate Coherent(b: Backend)
    requires WellFormed(b.cache)
  {
    forall t | CacheKey(t) in b.cache :: t in b.users.ids && Parse(b.cache[CacheKey(t)]) == b.users.ids[t]
  }

  /** While the cache agrees with the directory, it is invisible: lookups answer as the directory does, and agreement is kept. */
  lemma LookupCoherent(b: Backend, tid: TransportId)
    requires WellFormed(b.cache) && Coherent(b)
    ensures Lookup(b, tid).0 == GetOrCreate(b.users, tid).0
    ensures Coherent(Lookup(b, tid).1)
  {
    var key := CacheKey(tid);
    if key !in b.cache {
      var (id, b') := Lookup(b, tid);
      forall t | CacheKey(t) in b'.cache
        ensures t in b'.users.ids && Parse(b'.cache[CacheKey(t)]) == b'.users.ids[t]
      {
        if CacheKey(t) == key {
          CacheKeyInjective(t, tid);
          ParseShow(id);
        } else {
          GetOrCreateKeepsOthers(b.users, tid, t);
        }
      }
    }
  }

  /** `UserCacheService`, holding its cache client and user service as mutable state. */
  class UserCacheService {
    var cache: map<string, string>
    var users: Directory
    var resolverCalls: seq<TransportId>
    var cacheWrites: seq<CacheWrite>

    predicate Valid()
      reads this
    {
      WellFormed(cache)
    }

    function State(): (b: Backend)
      reads this
    {
      Backend(cache, users, resolverCalls, cacheWrites)
    }

    constructor (users: Directory, cache: map<string, string>)
      requires WellFormed(cache)
      ensures Valid() && State() == Backend(cache, users, [], [])
    {
      this.cache := cache;
      this.users := users;
      resolverCalls := [];
      cacheWrites := [];
    }

    /** `cache.get(key)`: the stored text, or nothing on a miss. */
    method CacheGet(key: string) returns (v: Option<string>)
      ensures key in cache <==> v.Some?
      ensures v.Some? ==> v.value == cache[key]
    {
      v := if key in cache then Some(cache[key]) else None;
    }

    /** `cache.set(key, value, {expires})`. */
    method CacheSet(key: string, value: string, expires: nat)
      modifies this
      ensures cache == old(cache)[key := value]
      ensures cacheWrites == old(cacheWrites) + [CacheWrite(key, value, expires)]
      ensures users == old(users) && resolverCalls == old(resolverCalls)
    {
      cache := cache[key := value];
      cacheWrites := cacheWrites + [CacheWrite(key, value, expires)];
    }

    /** `userService.getOrCreateUser(tid)`. */
    method GetOrCreateUser(tid: TransportId) returns (id: InternalId)
      modifies this
      ensures (id, users) == GetOrCreate(old(users), tid)
      ensures resolverCalls == old(resolverCalls) + [tid]
      ensures cache == old(cache) && cacheWrites == old(cacheWrites)
    {
      var r := GetOrCreate(users, tid);
      id, users := r.0, r.1;
      resolverCalls := resolverCalls + [tid];
    }

    /** `getUserId(telegramId)`. */
    method GetUserId(tid: TransportId) returns (id: InternalId)
      requires Valid()
      modifies this
      ensures Valid()
      ensures (id, State()) == Lookup(old(State()), tid)
      ensures CacheKey(tid) in old(cache) ==>
        id == Parse(old(cache)[CacheKey(tid)]) && State() == old(State())
      ensures CacheKey(tid) !in old(cache) ==>
        && (id, users) == GetOrCreate(old(users), tid)
        && resolverCalls == old(resolverCalls) + [tid]
        && cache == old(cache)[CacheKey(tid) := Show(id)]
        && cacheWrites == old(cacheWrites) + [CacheWrite(CacheKey(tid), Show(id), OneHourTtl)]
    {
      var key := CacheKey(tid);
      var cached := CacheGet(key);
      if cached.Some? {
        id := Parse(cached.value);
        return;
      }
      id := GetOrCreateUser(tid);
      CacheSet(key, Show(id), OneHourTtl);
    }
  }
}
