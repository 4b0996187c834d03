/** DeduplicationCache under overlapping calls: the read lock and the write lock are separate steps. */
module DedupInterleaved {
  import opened Models
  import opened DedupCache

  /** A call has read the entry (Looking), or has judged it stale and is about to store (Storing).
      `before` is the number of calls that had stored when this one read. */
  datatype Call = Idle | Looking(key: string, last: Option<int>, before: nat) | Storing(key: string, before: nat)

  /** A call that was accepted, the time it stored, and how many stores its read came after. */
  datatype Store = Store(key: string, time: int, before: nat)

  datatype Hit = Hit(key: string, time: int)

  datatype State = State(now: int, cache: Cache, calls: seq<Call>, stores: seq<Store>, hits: seq<Hit>)

  datatype Action =
    | Tick(elapsed: nat)
    | Read(c: nat, key: string)
    | Suppress(c: nat)
    | Miss(c: nat)
    | Write(c: nat)
    | Cleanup

  function Init(now: int, calls: nat): State {
    State(now, map[], seq(calls, _ => Idle), [], [])
  }

  predicate Recent(last: Option<int>, now: int, ttl: int) {
    last.Some? && now - last.value < ttl
  }

  predicate Enabled(s: State, ttl: int, a: Action) {
    match a
    case Tick(_) => true
    case Read(c, _) => c < |s.calls| && s.calls[c].Idle?
    case Suppress(c) => c < |s.calls| && s.calls[c].Looking? && Recent(s.calls[c].last, s.now, ttl)
    case Miss(c) => c < |s.calls| && s.calls[c].Looking? && !Recent(s.calls[c].last, s.now, ttl)
    case Write(c) => c < |s.calls| && s.calls[c].Storing?
    case Cleanup => true
  }

  function Apply(s: State, ttl: int, a: Action): State
    requires Enabled(s, ttl, a)
  {
    match a
    case Tick(elapsed) => s.(now := s.now + elapsed)
    case Read(c, key) =>
      s.(calls := s.calls[c := Looking(key, if key in s.cache then Some(s.cache[key]) else None, |s.stores|)])
    case Suppress(c) => s.(calls := s.calls[c := Idle], hits := s.hits + [Hit(s.calls[c].key, s.now)])
    case Miss(c) => s.(calls := s.calls[c := Storing(s.calls[c].key, s.calls[c].before)])
    case Write(c) =>
      s.(cache := s.cache[s.calls[c].key := s.now], calls := s.calls[c := Idle],
         stores := s.stores + [Store(s.calls[c].key, s.now, s.calls[c].before)])
    case Cleanup => s.(cache := Evict(s.cache, s.now, ttl))
  }

  predicate Run(s: State, ttl: int, acts: seq<Action>)
    decreases |acts|
  {
    acts == [] || (Enabled(s, ttl, acts[0]) && Run(Apply(s, ttl, acts[0]), ttl, acts[1..]))
  }

  function Exec(s: State, ttl: int, acts: seq<Action>): State
    requires Run(s, ttl, acts)
    decreases |acts|
  {
    if acts == [] then s else Exec(Apply(s, ttl, acts[0]), ttl, acts[1..])
  }

  // ---- Invariants ----

  ghost predicate StoredBy(s: State, key: string, time: int) {
    exists i :: 0 <= i < |s.stores| && s.stores[i].key == key && s.stores[i].time == time
  }

  /** Every time in the cache, or read from it, is the time of a store; no store is in the future. */
  ghost predicate TimesAreStores(s: State) {
    && (forall i :: 0 <= i < |s.stores| ==> s.stores[i].time <= s.now)
    && (forall key :: key in s.cache ==> StoredBy(s, key, s.cache[key]))
    && (forall c :: 0 <= c < |s.calls| && s.calls[c].Looking? && s.calls[c].last.Some? ==>
          StoredBy(s, s.calls[c].key, s.calls[c].last.value))
  }

  /** A store that has not expired is still in the cache, or a later one with its key is. */
  predicate UnexpiredIsCached(s: State, ttl: int) {
    forall i :: 0 <= i < |s.stores| ==>
      || s.now - s.stores[i].time > ttl
      || (s.stores[i].key in s.cache && s.stores[i].time <= s.cache[s.stores[i].key])
  }

  /** What a call in progress knows of the stores that its read came after. */
  predicate Knows(s: State, ttl: int, c: Call) {
    match c
    case Idle => true
    case Looking(key, last, before) =>
      && before <= |s.stores|
      && (forall i :: 0 <= i < before && s.stores[i].key == key ==>
            s.now - s.stores[i].time > ttl || (last.Some? && s.stores[i].time <= last.value))
    case Storing(key, before) =>
      && before <= |s.stores|
      && (forall i :: 0 <= i < before && s.stores[i].key == key ==> s.now - s.stores[i].time >= ttl)
  }

  predicate CallsKnow(s: State, ttl: int) {
    forall c :: 0 <= c < |s.calls| ==> Knows(s, ttl, s.calls[c])
  }

  predicate StoresApart(s: State, ttl: int) {
    forall j :: 0 <= j < |s.stores| ==>
      && s.stores[j].before <= j
      && forall i :: 0 <= i < s.stores[j].before && s.stores[i].key == s.stores[j].key ==>
           s.stores[j].time - s.stores[i].time >= ttl
  }

  ghost predicate HitsAreCovered(s: State, ttl: int) {
    forall h :: 0 <= h < |s.hits| ==> Covered(s, ttl, s.hits[h])
  }

  ghost predicate Covered(s: State, ttl: int, h: Hit) {
    exists i :: 0 <= i < |s.stores| && s.stores[i].key == h.key && s.stores[i].time <= h.time
                && h.time - s.stores[i].time < ttl
  }

  ghost predicate Inv(s: State, ttl: int) {
    TimesAreStores(s) && UnexpiredIsCached(s, ttl) && CallsKnow(s, ttl) && StoresApart(s, ttl) && HitsAreCovered(s, ttl)
  }

  lemma StoresOnlyGrow(s: State, ttl: int, a: Action)
    requires Enabled(s, ttl, a)
    ensures s.stores <= Apply(s, ttl, a).stores && s.now <= Apply(s, ttl, a).now
  {
  }

  lemma StoredByStays(s: State, ttl: int, a: Action, key: string, time: int)
    requires Enabled(s, ttl, a) && StoredBy(s, key, time)
    ensures StoredBy(Apply(s, ttl, a), key, time)
  {
    StoresOnlyGrow(s, ttl, a);
    var i :| 0 <= i < |s.stores| && s.stores[i].key == key && s.stores[i].time == time;
    assert Apply(s, ttl, a).stores[i] == s.stores[i];
  }

  lemma TimesStep(s: State, ttl: int, a: Action)
    requires TimesAreStores(s) && Enabled(s, ttl, a)
    ensures TimesAreStores(Apply(s, ttl, a))
  {
    var s' := Apply(s, ttl, a);
    StoresOnlyGrow(s, ttl, a);
    if a.Write? {
      assert s'.stores[|s.stores|] == Store(s.calls[a.c].key, s.now, s.calls[a.c].before);
    }
    forall key | key in s'.cache ensures StoredBy(s', key, s'.cache[key]) {
      if key in s.cache && s'.cache[key] == s.cache[key] {
        StoredByStays(s, ttl, a, key, s.cache[key]);
      }
    }
    forall c | 0 <= c < |s'.calls| && s'.calls[c].Looking? && s'.calls[c].last.Some?
      ensures StoredBy(s', s'.calls[c].key, s'.calls[c].last.value)
    {
      StoredByStays(s, ttl, a, s'.calls[c].key, s'.calls[c].last.value);
    }
  }

  lemma UnexpiredStep(s: State, ttl: int, a: Action)
    requires TimesAreStores(s) && UnexpiredIsCached(s, ttl) && Enabled(s, ttl, a)
    ensures UnexpiredIsCached(Apply(s, ttl, a), ttl)
  {
  }

  lemma KnowsStep(s: State, ttl: int, a: Action, c: Call)
    requires Knows(s, ttl, c) && Enabled(s, ttl, a)
    ensures Knows(Apply(s, ttl, a), ttl, c)
  {
    StoresOnlyGrow(s, ttl, a);
  }

  lemma CallsStep(s: State, ttl: int, a: Action)
    requires UnexpiredIsCached(s, ttl) && CallsKnow(s, ttl) && Enabled(s, ttl, a)
    ensures CallsKnow(Apply(s, ttl, a), ttl)
  {
    var s' := Apply(s, ttl, a);
    forall c | 0 <= c < |s'.calls| ensures Knows(s', ttl, s'.calls[c]) {
      if s'.calls[c] == s.calls[c] {
        KnowsStep(s, ttl, a, s.calls[c]);
      }
    }
  }

  lemma ApartStep(s: State, ttl: int, a: Action)
    requires CallsKnow(s, ttl) && StoresApart(s, ttl) && Enabled(s, ttl, a)
    ensures StoresApart(Apply(s, ttl, a), ttl)
  {
    if a.Write? {
      assert Knows(s, ttl, s.calls[a.c]);
    }
  }

  lemma CoveredStays(s: State, ttl: int, a: Action, h: Hit)
    requires Enabled(s, ttl, a) && Covered(s, ttl, h)
    ensures Covered(Apply(s, ttl, a), ttl, h)
  {
    StoresOnlyGrow(s, ttl, a);
    var i :| 0 <= i < |s.stores| && s.stores[i].key == h.key && s.stores[i].time <= h.time
             && h.time - s.stores[i].time < ttl;
    assert Apply(s, ttl, a).stores[i] == s.stores[i];
  }

  lemma HitsStep(s: State, ttl: int, a: Action)
    requires TimesAreStores(s) && HitsAreCovered(s, ttl) && Enabled(s, ttl, a)
    ensures HitsAreCovered(Apply(s, ttl, a), ttl)
  {
    var s' := Apply(s, ttl, a);
    forall h | 0 <= h < |s'.hits| ensures Covered(s', ttl, s'.hits[h]) {
      if h < |s.hits| {
        CoveredStays(s, ttl, a, s.hits[h]);
      } else {
        assert StoredBy(s, s.calls[a.c].key, s.calls[a.c].last.value);
      }
    }
  }

  lemma {:induction false} InvRun(s: State, ttl: int, acts: seq<Action>)
    requires Inv(s, ttl) && Run(s, ttl, acts)
    ensures Inv(Exec(s, ttl, acts), ttl)
    decreases |acts|
  {
    if acts != [] {
      TimesStep(s, ttl, acts[0]);
      UnexpiredStep(s, ttl, acts[0]);
      CallsStep(s, ttl, acts[0]);
      ApartStep(s, ttl, acts[0]);
      HitsStep(s, ttl, acts[0]);
      InvRun(Apply(s, ttl, acts[0]), ttl, acts[1..]);
    }
  }

  /** A cleanup leaves exactly the entries of at most ttl, as they were, and touches nothing else. */
  lemma CleanupLeavesUnexpired(s: State, ttl: int)
    ensures var after := Apply(s, ttl, Cleanup);
            && (forall key :: key in after.cache <==> key in s.cache && s.now - s.cache[key] <= ttl)
            && (forall key :: key in after.cache ==> after.cache[key] == s.cache[key])
            && after == s.(cache := after.cache)
  {
  }

  // ---- Theorems ----

  /** However calls and cleanups interleave, a suppressed call has an accepted one with the same key less
      than ttl before it. */
  lemma SuppressedAreCovered(now: int, calls: nat, ttl: int, acts: seq<Action>, h: nat)
    requires Run(Init(now, calls), ttl, acts) && h < |Exec(Init(now, calls), ttl, acts).hits|
    ensures var s := Exec(Init(now, calls), ttl, acts);
            exists i :: 0 <= i < |s.stores| && s.stores[i].key == s.hits[h].key
                        && 0 <= s.hits[h].time - s.stores[i].time < ttl
  {
    InvRun(Init(now, calls), ttl, acts);
    var s := Exec(Init(now, calls), ttl, acts);
    assert Covered(s, ttl, s.hits[h]);
    var i :| 0 <= i < |s.stores| && s.stores[i].key == s.hits[h].key && s.stores[i].time <= s.hits[h].time
             && s.hits[h].time - s.stores[i].time < ttl;
    assert 0 <= s.hits[h].time - s.stores[i].time < ttl;
  }

  /** Two accepted calls with equal keys are at least ttl apart if the later one read after the earlier
      one had stored: a duplicate slips through only by reading before the other call's store. */
  lemma AcceptedAreApartUnlessOverlapping(now: int, calls: nat, ttl: int, acts: seq<Action>, i: nat, j: nat)
    requires Run(Init(now, calls), ttl, acts)
    requires var s := Exec(Init(now, calls), ttl, acts);
             j < |s.stores| && i < s.stores[j].before && i < |s.stores| && s.stores[i].key == s.stores[j].key
    ensures var s := Exec(Init(now, calls), ttl, acts); s.stores[j].time - s.stores[i].time >= ttl
  {
    InvRun(Init(now, calls), ttl, acts);
  }

  lemma {:induction false} LaterStoresAreLater(s: State, ttl: int, acts: seq<Action>, key: string, time: int)
    requires Inv(s, ttl) && Run(s, ttl, acts) && time <= s.now
    requires key in s.cache ==> time <= s.cache[key]
    ensures key in Exec(s, ttl, acts).cache ==> time <= Exec(s, ttl, acts).cache[key]
    decreases |acts|
  {
    if acts != [] {
      StoresOnlyGrow(s, ttl, acts[0]);
      TimesStep(s, ttl, acts[0]);
      UnexpiredStep(s, ttl, acts[0]);
      CallsStep(s, ttl, acts[0]);
      ApartStep(s, ttl, acts[0]);
      HitsStep(s, ttl, acts[0]);
      LaterStoresAreLater(Apply(s, ttl, acts[0]), ttl, acts[1..], key, time);
    }
  }

  /** The stored time of a key never decreases in any continuation, even across an eviction. */
  lemma StoredTimeNeverDecreases(s: State, ttl: int, acts: seq<Action>, key: string)
    requires Inv(s, ttl) && Run(s, ttl, acts) && key in s.cache && key in Exec(s, ttl, acts).cache
    ensures s.cache[key] <= Exec(s, ttl, acts).cache[key]
  {
    assert StoredBy(s, key, s.cache[key]);
    LaterStoresAreLater(s, ttl, acts, key, s.cache[key]);
  }

  /** The converse, in every reachable state: a call about to store for a key that was stored less than ttl
      ago read before that store, and it can store again, less than ttl after it. */
  lemma OverlapIsEnough(now: int, calls: nat, ttl: int, acts: seq<Action>, c: nat, i: nat)
    requires Run(Init(now, calls), ttl, acts)
    requires var s := Exec(Init(now, calls), ttl, acts);
             && c < |s.calls| && s.calls[c].Storing? && i < |s.stores|
             && s.stores[i].key == s.calls[c].key && s.now - s.stores[i].time < ttl
    ensures var s := Exec(Init(now, calls), ttl, acts);
            && s.calls[c].before <= i
            && Enabled(s, ttl, Write(c))
            && var after := Apply(s, ttl, Write(c)).stores;
               && after == s.stores + [Store(s.stores[i].key, s.now, s.calls[c].before)]
               && 0 <= after[|s.stores|].time - after[i].time < ttl
  {
    InvRun(Init(now, calls), ttl, acts);
    var s := Exec(Init(now, calls), ttl, acts);
    assert Knows(s, ttl, s.calls[c]);
  }

  /** From any state, two idle calls for a key that is not recent can overlap and both be accepted, at the
      same time. */
  lemma OverlappingCallsBothAccepted(s: State, ttl: int, c: nat, d: nat, key: string) returns (acts: seq<Action>)
    requires c < |s.calls| && d < |s.calls| && c != d && s.calls[c].Idle? && s.calls[d].Idle?
    requires key in s.cache ==> !Recent(Some(s.cache[key]), s.now, ttl)
    ensures Run(s, ttl, acts)
    ensures var n := |s.stores|;
            Exec(s, ttl, acts).stores == s.stores + [Store(key, s.now, n), Store(key, s.now, n)]
  {
    acts := [Read(c, key), Read(d, key), Miss(c), Miss(d), Write(c), Write(d)];
    var s1 := Apply(s, ttl, acts[0]);
    var s2 := Apply(s1, ttl, acts[1]);
    var s3 := Apply(s2, ttl, acts[2]);
    var s4 := Apply(s3, ttl, acts[3]);
    var s5 := Apply(s4, ttl, acts[4]);
    OneStep(s5, ttl, acts[5..]);
    OneStep(s4, ttl, acts[4..]);
    OneStep(s3, ttl, acts[3..]);
    OneStep(s2, ttl, acts[2..]);
    OneStep(s1, ttl, acts[1..]);
    OneStep(s, ttl, acts);
  }

  lemma OneStep(s: State, ttl: int, acts: seq<Action>)
    requires acts != [] && Enabled(s, ttl, acts[0]) && Run(Apply(s, ttl, acts[0]), ttl, acts[1..])
    ensures Run(s, ttl, acts) && Exec(s, ttl, acts) == Exec(Apply(s, ttl, acts[0]), ttl, acts[1..])
  {
  }
}
