/** DeduplicationCache: a cache with a time to live and background eviction. */
module DedupCache {
  import opened Models

  // ---- Keys ----

  /** SHA-256, truncated and printed in hexadecimal, is a parameter. */
  function GenerateKey(hash: string -> string, req: ScanRequest): string {
    if req.digest != "" then "digest:" + req.digest else "ref:" + hash(req.imageRef)
  }

  /** Two requests share a key exactly when both have the same digest, or neither has one and they name
      the same image; the two prefixes keep digests and references apart. */
  lemma SameKey(hash: string -> string, a: ScanRequest, b: ScanRequest)
    requires forall x, y :: hash(x) == hash(y) ==> x == y
    ensures GenerateKey(hash, a) == GenerateKey(hash, b) <==>
            if a.digest != "" || b.digest != "" then a.digest == b.digest else a.imageRef == b.imageRef
  {
    var ka, kb := GenerateKey(hash, a), GenerateKey(hash, b);
    if a.digest != "" {
      assert ka[0] == 'd' && ka[7..] == a.digest;
    } else {
      assert ka[0] == 'r' && ka[4..] == hash(a.imageRef);
    }
    if b.digest != "" {
      assert kb[0] == 'd' && kb[7..] == b.digest;
    } else {
      assert kb[0] == 'r' && kb[4..] == hash(b.imageRef);
    }
  }

  // ---- The cache as a value ----

  type Cache = map<string, int>

  predicate Fresh(cache: Cache, key: string, now: int, ttl: int) {
    key in cache && now - cache[key] < ttl
  }

  function Evict(cache: Cache, now: int, ttl: int): Cache {
    map key | key in cache && now - cache[key] <= ttl :: cache[key]
  }

  /** A call reads the clock to judge the age and again to stamp; a cleanup reads it once. */
  datatype Op = Lookup(key: string, tCheck: int, tStamp: int) | Sweep(now: int)

  datatype Answer = Accepted | Suppressed | Swept

  /** What one operation does to the cache.  Without eviction a sweep does nothing. */
  function After(cache: Cache, op: Op, ttl: int, evicting: bool): Cache {
    match op
    case Lookup(key, tCheck, tStamp) => if Fresh(cache, key, tCheck, ttl) then cache else cache[key := tStamp]
    case Sweep(now) => if evicting then Evict(cache, now, ttl) else cache
  }

  function AnswerTo(cache: Cache, op: Op, ttl: int): Answer {
    match op
    case Lookup(key, tCheck, _) => if Fresh(cache, key, tCheck, ttl) then Suppressed else Accepted
    case Sweep(_) => Swept
  }

  // ---- The cache as an object ----

  datatype DedupStats = DedupStats(size: nat, hits: nat, misses: nat, hitRate: real, ttl: int)

  class DeduplicationCache {
    var cache: Cache
    const ttl: int
    const hash: string -> string
    var stopped: bool
    var hitCount: nat
    var missCount: nat

    constructor (ttl: int, hash: string -> string)
      ensures cache == map[] && this.ttl == ttl && this.hash == hash
      ensures !stopped && hitCount == 0 && missCount == 0
    {
      this.cache, this.ttl, this.hash := map[], ttl, hash;
      stopped, hitCount, missCount := false, 0, 0;
    }

    /** One call with no other in between. */
    method IsDuplicate(req: ScanRequest, tCheck: int, tStamp: int) returns (duplicate: bool)
      modifies this`cache, this`hitCount, this`missCount
      ensures var op := Lookup(GenerateKey(hash, req), tCheck, tStamp);
              && (duplicate <==> AnswerTo(old(cache), op, ttl) == Suppressed)
              && cache == After(old(cache), op, ttl, true)
      ensures duplicate ==> cache == old(cache)
      ensures hitCount == old(hitCount) + (if duplicate then 1 else 0)
      ensures hitCount + missCount == old(hitCount + missCount) + 1
    {
      var key := GenerateKey(hash, req);
      if key in cache && tCheck - cache[key] < ttl {
        hitCount := hitCount + 1;
        return true;
      }
      cache := cache[key := tStamp];
      missCount := missCount + 1;
      duplicate := false;
    }

    /** Visits the keys in any order and deletes the expired ones from the map it is ranging over. */
    method Cleanup(now: int) returns (expired: nat)
      modifies this`cache
      ensures cache == After(old(cache), Sweep(now), ttl, true)
      ensures |old(cache)| == |cache| + expired
      ensures forall key :: key in cache ==> now - cache[key] <= ttl
    {
      expired := 0;
      var unvisited := cache.Keys;
      while unvisited != {}
        invariant unvisited <= cache.Keys <= old(cache).Keys
        invariant forall key :: key in cache ==> cache[key] == old(cache)[key]
        invariant forall key :: key in old(cache) && key !in unvisited ==>
                    (key in cache <==> now - old(cache)[key] <= ttl)
        invariant |old(cache)| == |cache| + expired
        decreases |unvisited|
      {
        var key :| key in unvisited;
        if now - cache[key] > ttl {
          assert (cache - {key}).Keys == cache.Keys - {key};
          cache := cache - {key};
          expired := expired + 1;
        }
        unvisited := unvisited - {key};
      }
    }

    method Stop()
      modifies this`stopped
      ensures stopped
    {
      if !stopped {
        stopped := true;
      }
    }

    method Stats() returns (stats: DedupStats)
      ensures stats.size == |cache| && stats.hits == hitCount && stats.misses == missCount && stats.ttl == ttl
      ensures 0.0 <= stats.hitRate <= 100.0
      ensures stats.hitRate * (hitCount + missCount) as real == 100.0 * hitCount as real
    {
      var total := hitCount + missCount;
      var hitRate := 0.0;
      if total > 0 {
        var share := hitCount as real / total as real;
        assert share * total as real == hitCount as real;
        assert 0.0 <= share <= 1.0;
        hitRate := share * 100.0;
        assert hitRate * total as real == (share * total as real) * 100.0;
      }
      stats := DedupStats(|cache|, hitCount, missCount, hitRate, ttl);
    }
  }

  // ---- Runs of calls that do not overlap ----

  function StartsAt(op: Op): int { if op.Lookup? then op.tCheck else op.now }
  function EndsAt(op: Op): int { if op.Lookup? then op.tStamp else op.now }

  /** The clock never goes back, within a call or from one to the next. */
  predicate Ordered(ops: seq<Op>) {
    && (forall i :: 0 <= i < |ops| ==> StartsAt(ops[i]) <= EndsAt(ops[i]))
    && (forall i :: 0 <= i < |ops| - 1 ==> EndsAt(ops[i]) <= StartsAt(ops[i + 1]))
  }

  /** The cache before operation n, with eviction or without. */
  function CacheAt(ops: seq<Op>, ttl: int, evicting: bool, n: nat): Cache
    requires n <= |ops|
  {
    if n == 0 then map[] else After(CacheAt(ops, ttl, evicting, n - 1), ops[n - 1], ttl, evicting)
  }

  function AnswerAt(ops: seq<Op>, ttl: int, evicting: bool, n: nat): Answer
    requires n < |ops|
  {
    AnswerTo(CacheAt(ops, ttl, evicting, n), ops[n], ttl)
  }

  /** The time that has certainly passed before operation n. */
  predicate Passed(ops: seq<Op>, n: nat, t: int) {
    n <= |ops| && (n == 0 || EndsAt(ops[n - 1]) <= t)
  }

  /** The evicting cache is the other one with only expired entries missing. */
  lemma {:induction false} EvictedEntriesAreExpired(ops: seq<Op>, ttl: int, n: nat, key: string, t: int)
    requires Ordered(ops) && Passed(ops, n, t)
    ensures var small, full := CacheAt(ops, ttl, true, n), CacheAt(ops, ttl, false, n);
            && (key in small ==> key in full && small[key] == full[key])
            && (key in full && key !in small ==> t - full[key] > ttl)
  {
    if n > 0 {
      var op := ops[n - 1];
      EvictedEntriesAreExpired(ops, ttl, n - 1, key, StartsAt(op));
      if op.Lookup? {
        EvictedEntriesAreExpired(ops, ttl, n - 1, op.key, StartsAt(op));
      }
    }
  }

  /** Eviction cannot be observed: every call gets the answer it would get from a cache that never evicts,
      because a hit needs age < ttl and eviction needs age > ttl. */
  lemma EvictionIsUnobservable(ops: seq<Op>, ttl: int, n: nat)
    requires Ordered(ops) && n < |ops|
    ensures AnswerAt(ops, ttl, true, n) == AnswerAt(ops, ttl, false, n)
  {
    if ops[n].Lookup? {
      EvictedEntriesAreExpired(ops, ttl, n, ops[n].key, ops[n].tCheck);
    }
  }

  // ---- What the answers mean over a whole run ----

  predicate AcceptedAt(ops: seq<Op>, ttl: int, key: string, j: nat) {
    j < |ops| && ops[j].Lookup? && ops[j].key == key && AnswerAt(ops, ttl, true, j) == Accepted
  }

  /** An entry is the stamp of an accepted call, and no accepted call has a later one. */
  lemma {:induction false} EntryIsLatestAccepted(ops: seq<Op>, ttl: int, n: nat, key: string)
    requires Ordered(ops) && n <= |ops|
    ensures var full := CacheAt(ops, ttl, false, n);
            && (key in full ==> exists j: nat :: j < n && AcceptedAt(ops, ttl, key, j) && ops[j].tStamp == full[key])
            && (forall j: nat :: j < n && AcceptedAt(ops, ttl, key, j) ==> key in full && ops[j].tStamp <= full[key])
            && (key in full ==> n > 0 && full[key] <= EndsAt(ops[n - 1]))
  {
    if n > 0 {
      EntryIsLatestAccepted(ops, ttl, n - 1, key);
      EvictionIsUnobservable(ops, ttl, n - 1);
      var op := ops[n - 1];
      if n > 1 {
        assert EndsAt(ops[n - 2]) <= StartsAt(op);
      }
      if op.Lookup? && op.key == key && AcceptedAt(ops, ttl, key, n - 1) {
        assert CacheAt(ops, ttl, false, n)[key] == op.tStamp;
      }
    }
  }

  /** A call is suppressed if and only if an earlier call with the same key was accepted less than ttl
      before it.  Suppressed calls and cleanups do not enter into it, so neither extends the window. */
  lemma SuppressedIffRecentlyAccepted(ops: seq<Op>, ttl: int, i: nat)
    requires Ordered(ops) && i < |ops| && ops[i].Lookup?
    ensures AnswerAt(ops, ttl, true, i) == Suppressed <==>
            exists j: nat :: j < i && AcceptedAt(ops, ttl, ops[i].key, j) && ops[i].tCheck - ops[j].tStamp < ttl
  {
    EvictionIsUnobservable(ops, ttl, i);
    EntryIsLatestAccepted(ops, ttl, i, ops[i].key);
  }

  /** Hence accepted calls with equal keys are at least ttl apart. */
  lemma AcceptedAreApart(ops: seq<Op>, ttl: int, key: string, i: nat, j: nat)
    requires Ordered(ops) && i < j && AcceptedAt(ops, ttl, key, i) && AcceptedAt(ops, ttl, key, j)
    ensures ops[j].tStamp - ops[i].tStamp >= ttl
  {
    SuppressedIffRecentlyAccepted(ops, ttl, j);
  }
}
