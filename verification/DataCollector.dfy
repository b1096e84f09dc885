/**
 The shared, reference-counted data cache: per-key locks that are never deleted, a
 meta lock around the bookkeeping, and reads of the cache that take no meta lock.
 Threads interleave between the atomic steps below.
 */
module DataCollector {
  import opened Helpers

  type Key = string
  type Pool = nat   // identity of a fetched pool
  type Lock = nat   // identity of a lock object
  type Tid = nat

  // ------------------------------------------------------------ shared data

  datatype Shared = Shared(cache: map<Key, Pool>, locks: map<Key, Lock>, refcounts: map<Key, int>, nextLock: Lock)

  /** `dict.get(key, default)` of the reference counts. */
  function Count(s: Shared, k: Key, default: int): int {
    if k in s.refcounts then s.refcounts[k] else default
  }

  function AfterRef(s: Shared, k: Key): Shared { s.(refcounts := s.refcounts[k := Count(s, k, 0) + 1]) }

  function AfterEvict(s: Shared, k: Key): Shared {
    var count := Count(s, k, 1) - 1;
    if count <= 0 then s.(cache := s.cache - {k}, refcounts := s.refcounts - {k})
    else s.(refcounts := s.refcounts[k := count])
  }

  function AfterKeyLock(s: Shared, k: Key): Shared {
    if k in s.locks then s else s.(locks := s.locks[k := s.nextLock], nextLock := s.nextLock + 1)
  }

  /** The object the threads share; each method is what one thread does undisturbed. */
  class DataCollector {
    var cache: map<Key, Pool>
    var locks: map<Key, Lock>
    var refcounts: map<Key, int>
    var nextLock: Lock

    ghost function View(): Shared
      reads this
    {
      Shared(cache, locks, refcounts, nextLock)
    }

    constructor ()
      ensures View() == Shared(map[], map[], map[], 0)
    {
      cache, locks, refcounts, nextLock := map[], map[], map[], 0;
    }

    method GetKeyLock(key: Key) returns (lock: Lock)
      modifies this
      ensures View() == AfterKeyLock(old(View()), key)
      ensures key in locks && lock == locks[key]
    {
      if key !in locks {
        locks := locks[key := nextLock];
        nextLock := nextLock + 1;
      }
      lock := locks[key];
    }

    method Ref(key: Key)
      modifies this
      ensures View() == AfterRef(old(View()), key)
    {
      refcounts := refcounts[key := (if key in refcounts then refcounts[key] else 0) + 1];
    }

    method Evict(key: Key)
      modifies this
      ensures View() == AfterEvict(old(View()), key)
    {
      var count := (if key in refcounts then refcounts[key] else 1) - 1;
      if count <= 0 {
        cache := cache - {key};
        refcounts := refcounts - {key};
      } else {
        refcounts := refcounts[key := count];
      }
    }

    method Get(key: Key) returns (pool: Option<Pool>)
      ensures pool == if key in cache then Some(cache[key]) else None
    {
      pool := if key in cache then Some(cache[key]) else None;
    }

    /** `fetched` is what `_fetch_all` would return (None: it raises). */
    method Collect(key: Key, fetched: Option<Pool>) returns (pool: Option<Pool>)
      modifies this
      ensures pool == if key in old(cache) then Some(old(cache)[key]) else fetched
      ensures View() == AfterKeyLock(old(View()), key).(cache :=
        if key in old(cache) || fetched.None? then old(cache) else old(cache)[key := fetched.value])
    {
      var lock := GetKeyLock(key);
      if key !in cache {
        if fetched.None? { return None; }
        cache := cache[key := fetched.value];
      }
      pool := Some(cache[key]);
    }
  }

  // ------------------------------------------------------ interleaved threads

  datatype Outcome = Got(pool: Pool) | FetchError | KeyError

  /** Where a thread is. From `Checking` to `Releasing` it is inside the key lock. */
  datatype Phase = Idle | Ready | Waiting | Checking | Fetching | Storing(fetched: Pool) | Reading | Releasing(outcome: Outcome)

  /** `seen` is the pool of the last successful collect since the thread took its reference. */
  datatype Thread = Thread(phase: Phase, key: Key, lock: Lock, seen: Option<Pool>)

  datatype State = State(shared: Shared, holder: map<Lock, Tid>, threads: map<Tid, Thread>)

  datatype Step =
    | Ref(t: Tid, key: Key)
    | GetKeyLock(t: Tid)
    | Acquire(t: Tid)
    | TimeOut(t: Tid)
    | Check(t: Tid)
    | FetchOk(t: Tid, pool: Pool)
    | FetchFail(t: Tid)
    | Store(t: Tid)
    | Read(t: Tid)
    | Release(t: Tid)
    | Evict(t: Tid)

  predicate Inside(p: Phase) { !p.Idle? && !p.Ready? && !p.Waiting? }

  predicate Enabled(s: State, e: Step) {
    e.t in s.threads &&
    var th := s.threads[e.t];
    match e
    case Ref(_, _) => th.phase.Idle?
    case GetKeyLock(_) => th.phase.Ready?
    case Acquire(_) => th.phase.Waiting? && th.lock !in s.holder
    case TimeOut(_) => th.phase.Waiting?
    case Check(_) => th.phase.Checking?
    case FetchOk(_, _) => th.phase.Fetching?
    case FetchFail(_) => th.phase.Fetching?
    case Store(_) => th.phase.Storing?
    case Read(_) => th.phase.Reading?
    case Release(_) => th.phase.Releasing? && th.lock in s.holder
    case Evict(_) => th.phase.Ready?
  }

  function With(s: State, t: Tid, th: Thread): State { s.(threads := s.threads[t := th]) }

  function At(s: State, t: Tid, phase: Phase): State
    requires t in s.threads
  {
    With(s, t, s.threads[t].(phase := phase))
  }

  function Apply(s: State, e: Step): State
    requires Enabled(s, e)
  {
    var t, th := e.t, s.threads[e.t];
    match e
    case Ref(_, k) => With(s, t, Thread(Ready, k, 0, None)).(shared := AfterRef(s.shared, k))
    case GetKeyLock(_) =>
      var shared := AfterKeyLock(s.shared, th.key);
      With(s, t, th.(phase := Waiting, lock := shared.locks[th.key])).(shared := shared)
    case Acquire(_) => At(s, t, Checking).(holder := s.holder[th.lock := t])
    case TimeOut(_) => At(s, t, Ready)
    case Check(_) => At(s, t, if th.key in s.shared.cache then Reading else Fetching)
    case FetchOk(_, pool) => At(s, t, Storing(pool))
    case FetchFail(_) => At(s, t, Releasing(FetchError))
    case Store(_) =>
      At(s, t, Reading).(shared := s.shared.(cache := s.shared.cache[th.key := th.phase.fetched]))
    case Read(_) =>
      At(s, t, Releasing(if th.key in s.shared.cache then Got(s.shared.cache[th.key]) else KeyError))
    case Release(_) =>
      var seen := if th.phase.outcome.Got? then Some(th.phase.outcome.pool) else th.seen;
      With(s, t, th.(phase := Ready, seen := seen)).(holder := s.holder - {th.lock})
    case Evict(_) => At(s, t, Idle).(shared := AfterEvict(s.shared, th.key))
  }

  // --------------------------------------------------------------- invariant

  predicate Holds(th: Thread, k: Key) { !th.phase.Idle? && th.key == k }

  function Holders(threads: map<Tid, Thread>, k: Key): set<Tid> {
    set t | t in threads && Holds(threads[t], k)
  }

  /** Lock objects: one per key for ever, and held by exactly the thread inside. */
  ghost predicate LockInv(s: State) {
    && (forall k :: k in s.shared.locks ==> s.shared.locks[k] < s.shared.nextLock)
    && (forall k, l :: k in s.shared.locks && l in s.shared.locks && s.shared.locks[k] == s.shared.locks[l] ==> k == l)
    && (forall t :: t in s.threads ==> ThreadLockInv(s.shared.locks, s.holder, t, s.threads[t]))
    && (forall l :: l in s.holder ==> HolderInv(s.threads, l, s.holder[l]))
  }

  ghost predicate ThreadLockInv(locks: map<Key, Lock>, holder: map<Lock, Tid>, t: Tid, th: Thread) {
    && (Inside(th.phase) || th.phase.Waiting? ==> th.key in locks && th.lock == locks[th.key])
    && (Inside(th.phase) ==> th.lock in holder && holder[th.lock] == t)
  }

  ghost predicate HolderInv(threads: map<Tid, Thread>, l: Lock, t: Tid) {
    t in threads && Inside(threads[t].phase) && threads[t].lock == l
  }

  /** Counts: the number of threads between ref and evict. */
  ghost predicate CountInv(s: State) {
    && (forall k :: k in s.shared.refcounts ==>
          s.shared.refcounts[k] == |Holders(s.threads, k)| && s.shared.refcounts[k] >= 1)
    && (forall t :: t in s.threads && !s.threads[t].phase.Idle? ==> s.threads[t].key in s.shared.refcounts)
  }

  /** Cache: an entry is held by somebody, is absent while it is fetched, and is what was seen. */
  ghost predicate ThreadCacheInv(shared: Shared, th: Thread) {
    && (th.phase.Fetching? || th.phase.Storing? ==> th.key !in shared.cache)
    && (th.phase.Reading? ==> th.key in shared.cache)
    && (th.phase.Releasing? ==> th.phase.outcome != KeyError)
    && (th.phase.Releasing? && th.phase.outcome.Got? ==>
          th.key in shared.cache && shared.cache[th.key] == th.phase.outcome.pool)
    && (!th.phase.Idle? && th.seen.Some? ==> th.key in shared.cache && shared.cache[th.key] == th.seen.value)
  }

  ghost predicate CacheInv(s: State) {
    && (forall k :: k in s.shared.cache ==> k in s.shared.refcounts)
    && (forall t :: t in s.threads ==> ThreadCacheInv(s.shared, s.threads[t]))
  }

  ghost predicate Inv(s: State) { LockInv(s) && CountInv(s) && CacheInv(s) }

  ghost predicate Init(s: State) {
    s.shared == Shared(map[], map[], map[], 0) && s.holder == map[] &&
    forall t :: t in s.threads ==> s.threads[t].phase.Idle?
  }

  lemma InitInv(s: State)
    requires Init(s)
    ensures Inv(s)
  {
  }

  // ----------------------------------------------- every step keeps the invariant

  /** What a step leaves alone: the other threads, and the locks already made. */
  lemma OthersUntouched(s: State, e: Step)
    requires Enabled(s, e)
    ensures Apply(s, e).threads.Keys == s.threads.Keys
    ensures forall t :: t in s.threads && t != e.t ==> Apply(s, e).threads[t] == s.threads[t]
    ensures forall k :: k in s.shared.locks ==> k in Apply(s, e).shared.locks && Apply(s, e).shared.locks[k] == s.shared.locks[k]
  {
  }

  /** What a step does with the held locks: its thread may take a free one or give its own back. */
  lemma HolderAfter(s: State, e: Step)
    requires Enabled(s, e)
    ensures Apply(s, e).holder == match e
      case Acquire(_) => s.holder[s.threads[e.t].lock := e.t]
      case Release(_) => s.holder - {s.threads[e.t].lock}
      case _ => s.holder
    ensures Inside(Apply(s, e).threads[e.t].phase) == if e.Acquire? then true else if e.Release? then false else Inside(s.threads[e.t].phase)
  {
  }

  lemma OtherThreadLock(s: State, e: Step, t: Tid)
    requires LockInv(s) && Enabled(s, e) && t in s.threads && t != e.t
    ensures ThreadLockInv(Apply(s, e).shared.locks, Apply(s, e).holder, t, Apply(s, e).threads[t])
  {
    OthersUntouched(s, e);
    HolderAfter(s, e);
    assert ThreadLockInv(s.shared.locks, s.holder, t, s.threads[t]);
    assert ThreadLockInv(s.shared.locks, s.holder, e.t, s.threads[e.t]);
  }

  lemma OwnThreadLock(s: State, e: Step)
    requires LockInv(s) && Enabled(s, e)
    ensures ThreadLockInv(Apply(s, e).shared.locks, Apply(s, e).holder, e.t, Apply(s, e).threads[e.t])
  {
    assert ThreadLockInv(s.shared.locks, s.holder, e.t, s.threads[e.t]);
  }

  lemma HolderStep(s: State, e: Step, l: Lock)
    requires LockInv(s) && Enabled(s, e) && l in Apply(s, e).holder
    ensures HolderInv(Apply(s, e).threads, l, Apply(s, e).holder[l])
  {
    OthersUntouched(s, e);
    HolderAfter(s, e);
    assert ThreadLockInv(s.shared.locks, s.holder, e.t, s.threads[e.t]);
    if l in s.holder { assert HolderInv(s.threads, l, s.holder[l]); }
  }

  lemma LockStep(s: State, e: Step)
    requires LockInv(s) && Enabled(s, e)
    ensures LockInv(Apply(s, e))
  {
    var s' := Apply(s, e);
    OthersUntouched(s, e);
    forall t | t in s'.threads ensures ThreadLockInv(s'.shared.locks, s'.holder, t, s'.threads[t]) {
      if t == e.t { OwnThreadLock(s, e); } else { OtherThreadLock(s, e, t); }
    }
    forall l | l in s'.holder ensures HolderInv(s'.threads, l, s'.holder[l]) {
      HolderStep(s, e, l);
    }
    LocksDistinct(s, e);
  }

  lemma LocksDistinct(s: State, e: Step)
    requires LockInv(s) && Enabled(s, e)
    ensures var locks := Apply(s, e).shared.locks;
      && (forall k :: k in locks ==> locks[k] < Apply(s, e).shared.nextLock)
      && (forall k, l :: k in locks && l in locks && locks[k] == locks[l] ==> k == l)
  {
    if e.GetKeyLock? {
      NewLockDistinct(s.shared, s.threads[e.t].key);
    }
  }

  lemma NewLockDistinct(shared: Shared, key: Key)
    requires forall k :: k in shared.locks ==> shared.locks[k] < shared.nextLock
    requires forall k, l :: k in shared.locks && l in shared.locks && shared.locks[k] == shared.locks[l] ==> k == l
    ensures var after := AfterKeyLock(shared, key);
      && (forall k :: k in after.locks ==> after.locks[k] < after.nextLock)
      && (forall k, l :: k in after.locks && l in after.locks && after.locks[k] == after.locks[l] ==> k == l)
  {
  }

  lemma HoldersAfter(threads: map<Tid, Thread>, t: Tid, th: Thread, k: Key)
    requires t in threads
    ensures var h, h' := Holders(threads, k), Holders(threads[t := th], k);
      && (Holds(threads[t], k) == Holds(th, k) ==> h' == h)
      && (Holds(threads[t], k) && !Holds(th, k) ==> |h'| == |h| - 1)
      && (!Holds(threads[t], k) && Holds(th, k) ==> |h'| == |h| + 1)
  {
    var h, h' := Holders(threads, k), Holders(threads[t := th], k);
    if Holds(threads[t], k) == Holds(th, k) {
      assert h' == h;
    } else if Holds(th, k) {
      assert h' == h + {t};
    } else {
      assert h == h' + {t};
    }
  }

  lemma NoHolders(s: State, k: Key)
    requires CountInv(s) && k !in s.shared.refcounts
    ensures |Holders(s.threads, k)| == 0
  {
    assert Holders(s.threads, k) == {};
  }

  lemma CountStep(s: State, e: Step)
    requires CountInv(s) && Enabled(s, e)
    ensures CountInv(Apply(s, e))
  {
    var s' := Apply(s, e);
    var th' := s'.threads[e.t];
    assert s'.threads == s.threads[e.t := th'];
    forall k | k in s'.shared.refcounts
      ensures s'.shared.refcounts[k] == |Holders(s'.threads, k)| && s'.shared.refcounts[k] >= 1
    {
      HoldersAfter(s.threads, e.t, th', k);
      if k !in s.shared.refcounts { NoHolders(s, k); }
    }
    CountedAfter(s, e);
  }

  lemma StaysCounted(s: State, e: Step, u: Tid)
    requires CountInv(s) && Enabled(s, e) && u in s.threads && u != e.t && !s.threads[u].phase.Idle?
    ensures s.threads[u].key in Apply(s, e).shared.refcounts
  {
    if e.Evict? && s.threads[u].key == s.threads[e.t].key {
      TwoHolders(s.threads, e.t, u, s.threads[u].key);
    }
  }

  lemma CountedAfter(s: State, e: Step)
    requires CountInv(s) && Enabled(s, e)
    ensures forall u :: u in Apply(s, e).threads && !Apply(s, e).threads[u].phase.Idle? ==>
      Apply(s, e).threads[u].key in Apply(s, e).shared.refcounts
  {
    var s' := Apply(s, e);
    OthersUntouched(s, e);
    forall u | u in s'.threads && !s'.threads[u].phase.Idle? ensures s'.threads[u].key in s'.shared.refcounts {
      if u != e.t { StaysCounted(s, e, u); }
    }
  }

  lemma TwoHolders(threads: map<Tid, Thread>, t: Tid, u: Tid, k: Key)
    requires t != u && t in threads && u in threads && Holds(threads[t], k) && Holds(threads[u], k)
    ensures |Holders(threads, k)| >= 2
  {
    var h := Holders(threads, k);
    assert {t, u} <= h;
    var rest := h - {t};
    assert u in rest && |rest| == |h| - 1;
  }

  /** An evict empties the cache slot only when no other thread holds the key. */
  lemma EvictLeavesOthers(s: State, t: Tid, u: Tid)
    requires CountInv(s) && t in s.threads && u in s.threads && t != u
    requires s.threads[t].phase.Ready? && !s.threads[u].phase.Idle?
    ensures AfterEvict(s.shared, s.threads[t].key).cache
      == if Count(s.shared, s.threads[t].key, 1) == 1 then s.shared.cache - {s.threads[t].key} else s.shared.cache
    ensures Count(s.shared, s.threads[t].key, 1) == 1 ==> s.threads[u].key != s.threads[t].key
  {
    if s.threads[u].key == s.threads[t].key {
      TwoHolders(s.threads, t, u, s.threads[t].key);
    }
  }

  lemma StoreLeavesOthers(s: State, e: Step, u: Tid)
    requires Inv(s) && Enabled(s, e) && e.Store? && u in s.threads && u != e.t
    ensures ThreadCacheInv(Apply(s, e).shared, s.threads[u])
  {
    assert ThreadCacheInv(s.shared, s.threads[u]);
    assert ThreadCacheInv(s.shared, s.threads[e.t]);
    if Inside(s.threads[u].phase) { OneInside(s, e.t, u); }
  }

  lemma OtherThreadCache(s: State, e: Step, u: Tid)
    requires Inv(s) && Enabled(s, e) && u in s.threads && u != e.t
    ensures ThreadCacheInv(Apply(s, e).shared, s.threads[u])
  {
    assert ThreadCacheInv(s.shared, s.threads[u]);
    if e.Store? {
      StoreLeavesOthers(s, e, u);
    } else if e.Evict? && !s.threads[u].phase.Idle? {
      EvictLeavesOthers(s, e.t, u);
    }
  }

  lemma OwnThreadCache(s: State, e: Step)
    requires Inv(s) && Enabled(s, e)
    ensures ThreadCacheInv(Apply(s, e).shared, Apply(s, e).threads[e.t])
  {
    assert ThreadCacheInv(s.shared, s.threads[e.t]);
  }

  lemma CachedIsCounted(s: State, e: Step)
    requires Inv(s) && Enabled(s, e)
    ensures forall k :: k in Apply(s, e).shared.cache ==> k in Apply(s, e).shared.refcounts
  {
  }

  lemma CacheStep(s: State, e: Step)
    requires Inv(s) && Enabled(s, e)
    ensures CacheInv(Apply(s, e))
  {
    var s' := Apply(s, e);
    OthersUntouched(s, e);
    CachedIsCounted(s, e);
    forall u | u in s'.threads ensures ThreadCacheInv(s'.shared, s'.threads[u]) {
      if u == e.t { OwnThreadCache(s, e); } else { OtherThreadCache(s, e, u); }
    }
  }

  /** Mutual exclusion: at most one thread per key is inside, so at most one fetch is in flight. */
  lemma OneInside(s: State, t: Tid, u: Tid)
    requires LockInv(s) && t in s.threads && u in s.threads
    requires Inside(s.threads[t].phase) && Inside(s.threads[u].phase)
    ensures s.threads[t].key == s.threads[u].key ==> t == u
  {
  }

  lemma StepInv(s: State, e: Step)
    requires Inv(s) && Enabled(s, e)
    ensures Inv(Apply(s, e))
  {
    LockStep(s, e);
    CountStep(s, e);
    CacheStep(s, e);
  }

  // -------------------------------------------------------------- whole runs

  /** `states[i + 1]` follows from `states[i]` by `steps[i]`. */
  ghost predicate Run(states: seq<State>, steps: seq<Step>) {
    && |states| == |steps| + 1 && Init(states[0])
    && forall i :: 0 <= i < |steps| ==> Follows(states, steps, i)
  }

  ghost predicate Follows(states: seq<State>, steps: seq<Step>, i: nat)
    requires i < |steps| && |states| == |steps| + 1
  {
    Next(states[i], steps[i], states[i + 1])
  }

  ghost predicate Next(s: State, e: Step, s': State) { Enabled(s, e) && s' == Apply(s, e) }

  lemma {:induction false} RunInv(states: seq<State>, steps: seq<Step>, i: nat)
    requires Run(states, steps) && i < |states|
    ensures Inv(states[i])
  {
    if i == 0 {
      InitInv(states[0]);
    } else {
      RunInv(states, steps, i - 1);
      assert Follows(states, steps, i - 1);
      StepInv(states[i - 1], steps[i - 1]);
    }
  }

  /** Any step of a run: it starts from an invariant state. */
  lemma StepOfRun(states: seq<State>, steps: seq<Step>, i: nat)
    requires Run(states, steps) && i < |steps|
    ensures Inv(states[i]) && Next(states[i], steps[i], states[i + 1])
    ensures ThreadCacheInv(states[i].shared, states[i].threads[steps[i].t])
  {
    RunInv(states, steps, i);
    assert Follows(states, steps, i);
  }

  /** The key is referenced in every state from `i` to `j`. */
  ghost predicate Referenced(states: seq<State>, k: Key, i: nat, j: nat) {
    j < |states| && forall n :: i <= n <= j ==> k in states[n].shared.refcounts
  }

  lemma EvictKeepsCounted(shared: Shared, key: Key, k: Key)
    requires k in shared.cache && k in AfterEvict(shared, key).refcounts
    ensures k in AfterEvict(shared, key).cache && AfterEvict(shared, key).cache[k] == shared.cache[k]
  {
  }

  /** What a step does to the cache. */
  lemma CacheAfter(s: State, e: Step)
    requires Enabled(s, e)
    ensures Apply(s, e).shared.cache == match e
      case Store(_) => s.shared.cache[s.threads[e.t].key := s.threads[e.t].phase.fetched]
      case Evict(_) => AfterEvict(s.shared, s.threads[e.t].key).cache
      case _ => s.shared.cache
  {
  }

  lemma EntryStays(s: State, e: Step, s': State, k: Key)
    requires Inv(s) && Next(s, e, s') && k in s.shared.cache && k in s'.shared.refcounts
    ensures k in s'.shared.cache && s'.shared.cache[k] == s.shared.cache[k]
  {
    CacheAfter(s, e);
    if e.Store? {
      assert ThreadCacheInv(s.shared, s.threads[e.t]);
    } else if e.Evict? {
      EvictKeepsCounted(s.shared, s.threads[e.t].key, k);
    }
  }

  lemma EntryStaysAt(states: seq<State>, steps: seq<Step>, k: Key, j: nat)
    requires Run(states, steps) && j < |steps| && k in states[j].shared.cache && k in states[j + 1].shared.refcounts
    ensures k in states[j + 1].shared.cache && states[j + 1].shared.cache[k] == states[j].shared.cache[k]
  {
    StepOfRun(states, steps, j);
    EntryStays(states[j], steps[j], states[j + 1], k);
  }

  /** As long as somebody holds the key, its entry neither disappears nor changes. */
  lemma {:induction false} EntryIsStable(states: seq<State>, steps: seq<Step>, k: Key, i: nat, j: nat)
    requires Run(states, steps) && i <= j && Referenced(states, k, i, j) && k in states[i].shared.cache
    ensures k in states[j].shared.cache && states[j].shared.cache[k] == states[i].shared.cache[k]
  {
    if i < j {
      assert Referenced(states, k, i, j - 1);
      EntryIsStable(states, steps, k, i, j - 1);
      EntryStaysAt(states, steps, k, j - 1);
    }
  }

  ghost predicate StoresKey(s: State, e: Step, k: Key) { e.Store? && e.t in s.threads && s.threads[e.t].key == k }

  /** At most one completed fetch populates the cache while the key stays referenced. */
  lemma OneFetchPerPeriod(states: seq<State>, steps: seq<Step>, k: Key, i: nat, j: nat)
    requires Run(states, steps) && i < j < |steps| && StoresKey(states[i], steps[i], k) && StoresKey(states[j], steps[j], k)
    ensures !Referenced(states, k, i, j)
  {
    if Referenced(states, k, i, j) {
      StepOfRun(states, steps, i);
      assert Referenced(states, k, i + 1, j);
      EntryIsStable(states, steps, k, i + 1, j);
      AbsentBeforeStore(states, steps, k, j);
      assert false;
    }
  }

  lemma AbsentBeforeStore(states: seq<State>, steps: seq<Step>, k: Key, j: nat)
    requires Run(states, steps) && j < |steps| && StoresKey(states[j], steps[j], k)
    ensures k !in states[j].shared.cache
  {
    StepOfRun(states, steps, j);
  }

  ghost predicate ReadsKey(s: State, e: Step, k: Key) { e.Read? && e.t in s.threads && s.threads[e.t].key == k }

  ghost predicate Returns(s: State, t: Tid, pool: Pool) { t in s.threads && s.threads[t].phase == Releasing(Got(pool)) }

  lemma ReadReturns(states: seq<State>, steps: seq<Step>, k: Key, i: nat)
    requires Run(states, steps) && i < |steps| && ReadsKey(states[i], steps[i], k)
    ensures k in states[i].shared.cache && Returns(states[i + 1], steps[i].t, states[i].shared.cache[k])
  {
    StepOfRun(states, steps, i);
  }

  /** Every collect while the key stays referenced returns the same pool, and none misses it. */
  lemma SamePool(states: seq<State>, steps: seq<Step>, k: Key, i: nat, j: nat) returns (pool: Pool)
    requires Run(states, steps) && i <= j < |steps| && Referenced(states, k, i, j)
    requires ReadsKey(states[i], steps[i], k) && ReadsKey(states[j], steps[j], k)
    ensures Returns(states[i + 1], steps[i].t, pool) && Returns(states[j + 1], steps[j].t, pool)
  {
    ReadReturns(states, steps, k, i);
    ReadReturns(states, steps, k, j);
    pool := states[i].shared.cache[k];
    EntryIsStable(states, steps, k, i, j);
  }

  /** A holder that has collected finds its pool with an unlocked `get` until it evicts;
      and a key nobody holds is gone from the cache. */
  lemma EntryLifetime(states: seq<State>, steps: seq<Step>, i: nat)
    requires Run(states, steps) && i < |states|
    ensures forall t :: t in states[i].threads && !states[i].threads[t].phase.Idle? && states[i].threads[t].seen.Some? ==>
      states[i].threads[t].key in states[i].shared.cache
      && states[i].shared.cache[states[i].threads[t].key] == states[i].threads[t].seen.value
    ensures forall k :: k in states[i].shared.cache ==> Holders(states[i].threads, k) != {}
  {
    RunInv(states, steps, i);
    var s := states[i];
    forall t | t in s.threads && !s.threads[t].phase.Idle? && s.threads[t].seen.Some?
      ensures s.threads[t].key in s.shared.cache && s.shared.cache[s.threads[t].key] == s.threads[t].seen.value
    {
      assert ThreadCacheInv(s.shared, s.threads[t]);
    }
    forall k | k in s.shared.cache ensures Holders(s.threads, k) != {} {
      assert s.shared.refcounts[k] == |Holders(s.threads, k)| >= 1;
    }
  }

  /** At most one thread is fetching a key, in every state of every run. */
  lemma OneFetchInFlight(states: seq<State>, steps: seq<Step>, i: nat, t: Tid, u: Tid)
    requires Run(states, steps) && i < |states| && t in states[i].threads && u in states[i].threads
    requires states[i].threads[t].phase.Fetching? && states[i].threads[u].phase.Fetching?
    ensures states[i].threads[t].key == states[i].threads[u].key ==> t == u
  {
    RunInv(states, steps, i);
    OneInside(states[i], t, u);
  }

  // ----------------------------------------------------- outside the discipline

  /** An evict without a reference, as after a dry run, directly before a read makes the read
      fail exactly when its thread is the only holder. Over a whole run see `ReadFailsIff`. */
  lemma StrayEvict(s: State, t: Tid)
    requires Inv(s) && t in s.threads && s.threads[t].phase.Reading?
    ensures var stray := s.(shared := AfterEvict(s.shared, s.threads[t].key));
      Enabled(stray, Read(t)) &&
      (Apply(stray, Read(t)).threads[t].phase.outcome == KeyError <==> Holders(s.threads, s.threads[t].key) == {t})
  {
    var k := s.threads[t].key;
    var h := Holders(s.threads, k);
    assert t in h;
    assert ThreadCacheInv(s.shared, s.threads[t]);
    if |h| == 1 {
      assert |h - {t}| == 0;
      assert h == {t};
    }
  }

  /** A move of a run without the discipline: a step of a thread, an evict by a job that took
      no reference, or a thread that starts to collect without one, as a job does whose intent
      names another ticker than it references, and leaves without an evict. */
  datatype Move = Own(step: Step) | Stray(key: Key) | Begin(t: Tid, key: Key) | Quit(t: Tid)

  predicate Possible(s: State, m: Move) {
    match m
    case Own(e) => Enabled(s, e)
    case Stray(_) => true
    case Begin(t, _) => t in s.threads && s.threads[t].phase.Idle?
    case Quit(t) => t in s.threads && s.threads[t].phase.Ready?
  }

  function Moved(s: State, m: Move): State
    requires Possible(s, m)
  {
    match m
    case Own(e) => Apply(s, e)
    case Stray(k) => s.(shared := AfterEvict(s.shared, k))
    case Begin(t, k) => With(s, t, Thread(Ready, k, 0, None))
    case Quit(t) => At(s, t, Idle)
  }

  ghost predicate Leads(s: State, m: Move, s': State) { Possible(s, m) && s' == Moved(s, m) }

  ghost predicate LooseRun(states: seq<State>, moves: seq<Move>) {
    && |states| == |moves| + 1 && Init(states[0])
    && forall i :: 0 <= i < |moves| ==> LeadsAt(states, moves, i)
  }

  ghost predicate LeadsAt(states: seq<State>, moves: seq<Move>, i: nat)
    requires i < |moves| && |states| == |moves| + 1
  {
    Leads(states[i], moves[i], states[i + 1])
  }

  /** What is left of the invariant: the locks, and that what is fetched is not cached. */
  ghost predicate LooseInv(s: State) {
    LockInv(s) && forall t :: t in s.threads ==> AbsentWhileFetched(s.shared, s.threads[t])
  }

  predicate AbsentWhileFetched(shared: Shared, th: Thread) {
    th.phase.Fetching? || th.phase.Storing? ==> th.key !in shared.cache
  }

  /** A move outside the discipline: no thread comes inside, leaves or stores. */
  lemma OutsideMove(s: State, m: Move, u: Tid)
    requires Possible(s, m) && !m.Own?
    ensures Moved(s, m).threads.Keys == s.threads.Keys && Moved(s, m).holder == s.holder
    ensures Moved(s, m).shared.locks == s.shared.locks && Moved(s, m).shared.nextLock == s.shared.nextLock
    ensures u in s.threads ==>
      Moved(s, m).threads[u] == s.threads[u] || (Outside(s.threads[u].phase) && Outside(Moved(s, m).threads[u].phase))
    ensures forall k :: k in Moved(s, m).shared.cache ==> k in s.shared.cache
  {
  }

  predicate Outside(p: Phase) { p.Idle? || p.Ready? }

  lemma OutsideKeepsLocks(s: State, m: Move)
    requires LockInv(s) && Possible(s, m) && !m.Own?
    ensures LockInv(Moved(s, m))
  {
    var s' := Moved(s, m);
    OutsideMove(s, m, 0);
    forall t | t in s'.threads ensures ThreadLockInv(s'.shared.locks, s'.holder, t, s'.threads[t]) {
      OutsideMove(s, m, t);
      assert ThreadLockInv(s.shared.locks, s.holder, t, s.threads[t]);
    }
    forall l | l in s'.holder ensures HolderInv(s'.threads, l, s'.holder[l]) {
      assert HolderInv(s.threads, l, s.holder[l]);
      OutsideMove(s, m, s.holder[l]);
    }
  }

  lemma OwnKeepsAbsent(s: State, e: Step)
    requires LooseInv(s) && Enabled(s, e)
    ensures forall t :: t in Apply(s, e).threads ==> AbsentWhileFetched(Apply(s, e).shared, Apply(s, e).threads[t])
  {
    var s' := Apply(s, e);
    forall t | t in s'.threads ensures AbsentWhileFetched(s'.shared, s'.threads[t]) {
      assert AbsentWhileFetched(s.shared, s.threads[t]);
      if t != e.t && e.Store? && Inside(s.threads[t].phase) { OneInside(s, e.t, t); }
    }
  }

  lemma MoveLooseInv(s: State, m: Move)
    requires LooseInv(s) && Possible(s, m)
    ensures LooseInv(Moved(s, m))
  {
    if m.Own? {
      LockStep(s, m.step);
      OwnKeepsAbsent(s, m.step);
    } else {
      OutsideKeepsLocks(s, m);
      forall t | t in Moved(s, m).threads ensures AbsentWhileFetched(Moved(s, m).shared, Moved(s, m).threads[t]) {
        OutsideMove(s, m, t);
        assert AbsentWhileFetched(s.shared, s.threads[t]);
      }
    }
  }

  lemma {:induction false} LooseRunInv(states: seq<State>, moves: seq<Move>, i: nat)
    requires LooseRun(states, moves) && i < |states|
    ensures LooseInv(states[i])
  {
    if i == 0 {
      InitInv(states[0]);
    } else {
      LooseRunInv(states, moves, i - 1);
      assert LeadsAt(states, moves, i - 1);
      MoveLooseInv(states[i - 1], moves[i - 1]);
    }
  }

  predicate Evicts(s: State, m: Move, k: Key) {
    match m
    case Own(e) => e.Evict? && e.t in s.threads && s.threads[e.t].key == k
    case Stray(key) => key == k
    case _ => false
  }

  /** An evict of the key that finds a count of at most one, or none at all. */
  predicate Drops(s: State, m: Move, k: Key) { Evicts(s, m, k) && Count(s.shared, k, 1) <= 1 }

  predicate OfThread(m: Move, t: Tid) {
    match m
    case Own(e) => e.t == t
    case Stray(_) => false
    case Begin(u, _) => u == t
    case Quit(u) => u == t
  }

  /** While a thread is about to read, nothing but a dropping evict touches its entry. */
  lemma ReaderWaits(s: State, m: Move, t: Tid)
    requires LooseInv(s) && Possible(s, m) && !OfThread(m, t)
    requires t in s.threads && s.threads[t].phase.Reading?
    ensures t in Moved(s, m).threads && Moved(s, m).threads[t] == s.threads[t]
    ensures var k := s.threads[t].key; k in Moved(s, m).shared.cache <==> k in s.shared.cache && !Drops(s, m, k)
  {
    if m.Own? && m.step.Store? { OneInside(s, m.step.t, t); }
  }

  ghost predicate DropsAt(states: seq<State>, moves: seq<Move>, k: Key, n: nat) {
    n < |moves| && n < |states| && Drops(states[n], moves[n], k)
  }

  /** Some move from `i` on and before `j` is an evict of the key that drops its entry. */
  ghost predicate Dropped(states: seq<State>, moves: seq<Move>, k: Key, i: nat, j: nat) {
    exists n: nat :: i <= n < j && DropsAt(states, moves, k, n)
  }

  lemma DroppedOneMore(states: seq<State>, moves: seq<Move>, k: Key, i: nat, j: nat)
    requires i <= j
    ensures Dropped(states, moves, k, i, j + 1) <==> Dropped(states, moves, k, i, j) || DropsAt(states, moves, k, j)
  {
  }

  lemma ReaderWaitsAt(states: seq<State>, moves: seq<Move>, t: Tid, j: nat)
    requires LooseRun(states, moves) && j < |moves| && !OfThread(moves[j], t)
    requires t in states[j].threads && states[j].threads[t].phase.Reading?
    ensures t in states[j + 1].threads && states[j + 1].threads[t] == states[j].threads[t]
    ensures var k := states[j].threads[t].key;
      k in states[j + 1].shared.cache <==> k in states[j].shared.cache && !DropsAt(states, moves, k, j)
  {
    LooseRunInv(states, moves, j);
    assert LeadsAt(states, moves, j);
    ReaderWaits(states[j], moves[j], t);
  }

  lemma {:induction false} EntryWaits(states: seq<State>, moves: seq<Move>, t: Tid, i: nat, j: nat)
    requires LooseRun(states, moves) && i <= j < |states| && forall n :: i <= n < j ==> !OfThread(moves[n], t)
    requires t in states[i].threads && states[i].threads[t].phase.Reading?
    requires states[i].threads[t].key in states[i].shared.cache
    ensures t in states[j].threads && states[j].threads[t] == states[i].threads[t]
    ensures var k := states[i].threads[t].key; k in states[j].shared.cache <==> !Dropped(states, moves, k, i, j)
  {
    if i < j {
      EntryWaits(states, moves, t, i, j - 1);
      ReaderWaitsAt(states, moves, t, j - 1);
      DroppedOneMore(states, moves, states[i].threads[t].key, i, j - 1);
    }
  }

  /** The move after which a thread is about to read: its check found the entry, or it stored it. */
  ghost predicate EntersAt(states: seq<State>, moves: seq<Move>, t: Tid, i: nat) {
    i < |moves| && i + 1 < |states| && (moves[i] == Own(Check(t)) || moves[i] == Own(Store(t)))
    && t in states[i + 1].threads && states[i + 1].threads[t].phase.Reading?
  }

  lemma EntersWithEntry(states: seq<State>, moves: seq<Move>, t: Tid, i: nat)
    requires LooseRun(states, moves) && EntersAt(states, moves, t, i)
    ensures states[i + 1].threads[t].key in states[i + 1].shared.cache
  {
    assert LeadsAt(states, moves, i);
  }

  lemma BecomesReading(s: State, m: Move, t: Tid)
    requires Possible(s, m) && t in Moved(s, m).threads && Moved(s, m).threads[t].phase.Reading?
    ensures t in s.threads && if OfThread(m, t) then m == Own(Check(t)) || m == Own(Store(t)) else s.threads[t].phase.Reading?
  {
  }

  /** Every thread about to read has a move that brought it there and none of its own since. */
  lemma {:induction false} EntryOfReader(states: seq<State>, moves: seq<Move>, t: Tid, j: nat) returns (i: nat)
    requires LooseRun(states, moves) && j < |states| && t in states[j].threads && states[j].threads[t].phase.Reading?
    ensures i < j && EntersAt(states, moves, t, i) && forall n :: i < n < j ==> !OfThread(moves[n], t)
  {
    if j == 0 {
      assert false;
    } else {
      assert LeadsAt(states, moves, j - 1);
      BecomesReading(states[j - 1], moves[j - 1], t);
      if OfThread(moves[j - 1], t) {
        i := j - 1;
      } else {
        i := EntryOfReader(states, moves, t, j - 1);
      }
    }
  }

  ghost predicate MissesAt(states: seq<State>, t: Tid, j: nat) {
    j + 1 < |states| && t in states[j + 1].threads && states[j + 1].threads[t].phase == Releasing(KeyError)
  }

  /** Over every run of any number of threads, with evicts and collects without a reference: a read fails
      exactly when, since its thread's check or store, some evict of the key, with or without
      a reference of its own, found a count of at most one. */
  lemma ReadFailsIff(states: seq<State>, moves: seq<Move>, t: Tid, j: nat) returns (i: nat)
    requires LooseRun(states, moves) && j < |moves| && moves[j] == Own(Read(t))
    ensures i < j && EntersAt(states, moves, t, i) && forall n :: i < n < j ==> !OfThread(moves[n], t)
    ensures var k := states[i + 1].threads[t].key;
      MissesAt(states, t, j) <==> Dropped(states, moves, k, i + 1, j)
  {
    assert LeadsAt(states, moves, j);
    i := EntryOfReader(states, moves, t, j);
    EntersWithEntry(states, moves, t, i);
    EntryWaits(states, moves, t, i + 1, j);
  }

  // --------------------------------------------------- where a pool comes from

  /** Move `n` is a completed fetch of `pool` by a thread with key `k`. */
  ghost predicate FetchesAt(states: seq<State>, moves: seq<Move>, k: Key, pool: Pool, n: nat) {
    n < |moves| && n < |states| && moves[n].Own? && moves[n].step.FetchOk? && moves[n].step.pool == pool
    && moves[n].step.t in states[n].threads && states[n].threads[moves[n].step.t].key == k
  }

  ghost predicate FetchedBefore(states: seq<State>, moves: seq<Move>, k: Key, pool: Pool, j: nat) {
    exists n: nat :: n < j && FetchesAt(states, moves, k, pool, n)
  }

  /** What is cached, and what is about to be, has been fetched. */
  ghost predicate AllFetched(states: seq<State>, moves: seq<Move>, j: nat)
    requires j < |states|
  {
    && (forall k :: k in states[j].shared.cache ==> FetchedBefore(states, moves, k, states[j].shared.cache[k], j))
    && (forall t :: t in states[j].threads && states[j].threads[t].phase.Storing? ==>
          FetchedBefore(states, moves, states[j].threads[t].key, states[j].threads[t].phase.fetched, j))
  }

  /** Where the entry of a key comes from: it was there, or a thread of the key stored what it held. */
  lemma EntryFrom(s: State, m: Move, k: Key)
    requires Possible(s, m) && k in Moved(s, m).shared.cache
    ensures (k in s.shared.cache && Moved(s, m).shared.cache[k] == s.shared.cache[k])
      || (m.Own? && m.step.Store? && s.threads[m.step.t].key == k
            && s.threads[m.step.t].phase == Storing(Moved(s, m).shared.cache[k]))
  {
    if m.Own? { CacheAfter(s, m.step); }
  }

  /** Only a completed fetch of its own brings a thread to store. */
  lemma HoldsFetched(s: State, m: Move, t: Tid)
    requires Possible(s, m) && t in Moved(s, m).threads && Moved(s, m).threads[t].phase.Storing?
    ensures t in s.threads && Moved(s, m).threads[t].key == s.threads[t].key
    ensures if OfThread(m, t) then m == Own(FetchOk(t, Moved(s, m).threads[t].phase.fetched)) && s.threads[t].phase.Fetching?
            else s.threads[t] == Moved(s, m).threads[t]
  {
  }

  /** Over every run, with or without the discipline: an entry is the pool of a completed fetch of
      its key, and a failed fetch leaves none. */
  lemma {:induction false} CachedWasFetched(states: seq<State>, moves: seq<Move>, j: nat)
    requires LooseRun(states, moves) && j < |states|
    ensures AllFetched(states, moves, j)
  {
    if j > 0 {
      CachedWasFetched(states, moves, j - 1);
      assert LeadsAt(states, moves, j - 1);
      var s, m := states[j - 1], moves[j - 1];
      forall k | k in states[j].shared.cache ensures FetchedBefore(states, moves, k, states[j].shared.cache[k], j) {
        EntryFrom(s, m, k);
        FetchedStays(states, moves, k, states[j].shared.cache[k], j - 1);
      }
      forall t | t in states[j].threads && states[j].threads[t].phase.Storing?
        ensures FetchedBefore(states, moves, states[j].threads[t].key, states[j].threads[t].phase.fetched, j)
      {
        HoldsFetched(s, m, t);
        FetchedStays(states, moves, states[j].threads[t].key, states[j].threads[t].phase.fetched, j - 1);
      }
    }
  }

  lemma FetchedStays(states: seq<State>, moves: seq<Move>, k: Key, pool: Pool, j: nat)
    ensures FetchedBefore(states, moves, k, pool, j) || FetchesAt(states, moves, k, pool, j)
      ==> FetchedBefore(states, moves, k, pool, j + 1)
  {
  }

  ghost predicate QuietBetween(moves: seq<Move>, t: Tid, i: nat, j: nat) {
    j <= |moves| && forall n :: i < n < j ==> !OfThread(moves[n], t)
  }

  lemma {:induction false} LastFetch(states: seq<State>, moves: seq<Move>, t: Tid, j: nat) returns (i: nat)
    requires LooseRun(states, moves) && j < |states| && t in states[j].threads && states[j].threads[t].phase.Storing?
    ensures i < j && moves[i] == Own(FetchOk(t, states[j].threads[t].phase.fetched)) && QuietBetween(moves, t, i, j)
    ensures t in states[i].threads && states[i].threads[t].phase.Fetching? && states[i].threads[t].key == states[j].threads[t].key
  {
    if j == 0 {
      assert false;
    } else {
      assert LeadsAt(states, moves, j - 1);
      HoldsFetched(states[j - 1], moves[j - 1], t);
      if OfThread(moves[j - 1], t) { i := j - 1; } else { i := LastFetch(states, moves, t, j - 1); }
    }
  }

  lemma ComesToFetch(s: State, m: Move, t: Tid)
    requires Possible(s, m) && t in Moved(s, m).threads && Moved(s, m).threads[t].phase.Fetching?
    ensures t in s.threads && Moved(s, m).threads[t].key == s.threads[t].key
    ensures if OfThread(m, t) then m == Own(Check(t)) && s.threads[t].key !in s.shared.cache else s.threads[t].phase.Fetching?
  {
  }

  lemma {:induction false} LastCheck(states: seq<State>, moves: seq<Move>, t: Tid, j: nat) returns (i: nat)
    requires LooseRun(states, moves) && j < |states| && t in states[j].threads && states[j].threads[t].phase.Fetching?
    ensures i < j && moves[i] == Own(Check(t)) && QuietBetween(moves, t, i, j)
    ensures t in states[i].threads && states[i].threads[t].key == states[j].threads[t].key
    ensures states[i].threads[t].key !in states[i].shared.cache
  {
    if j == 0 {
      assert false;
    } else {
      assert LeadsAt(states, moves, j - 1);
      ComesToFetch(states[j - 1], moves[j - 1], t);
      if OfThread(moves[j - 1], t) { i := j - 1; } else { i := LastCheck(states, moves, t, j - 1); }
    }
  }

  /** Every store is of the pool its own thread has fetched, after its own check found no entry,
      and puts that pool into the cache. */
  lemma StoreIsOwnFetch(states: seq<State>, moves: seq<Move>, t: Tid, j: nat) returns (check: nat, fetch: nat, pool: Pool)
    requires LooseRun(states, moves) && j < |moves| && moves[j] == Own(Store(t))
    ensures check < fetch < j && moves[check] == Own(Check(t)) && moves[fetch] == Own(FetchOk(t, pool))
    ensures QuietBetween(moves, t, check, fetch) && QuietBetween(moves, t, fetch, j)
    ensures t in states[j].threads && t in states[check].threads
    ensures var k := states[j].threads[t].key;
      && states[check].threads[t].key == k && k !in states[check].shared.cache
      && states[j + 1].shared.cache == states[j].shared.cache[k := pool]
  {
    assert LeadsAt(states, moves, j);
    CacheAfter(states[j], moves[j].step);
    pool := states[j].threads[t].phase.fetched;
    fetch := LastFetch(states, moves, t, j);
    check := LastCheck(states, moves, t, fetch);
  }

  /** A fetch that raises stores nothing and ends the collect with the error; the thread's next
      step gives back its lock and leaves it with what it had seen before. */
  lemma FailedFetch(states: seq<State>, moves: seq<Move>, t: Tid, j: nat)
    requires LooseRun(states, moves) && j < |moves| && moves[j] == Own(FetchFail(t))
    ensures states[j + 1].shared == states[j].shared && states[j + 1].holder == states[j].holder
    ensures t in states[j + 1].threads && states[j + 1].threads[t].phase == Releasing(FetchError)
    ensures forall m :: Possible(states[j + 1], m) && OfThread(m, t) ==> m == Own(Release(t))
  {
    assert LeadsAt(states, moves, j);
  }

  /** A release frees exactly the thread's lock; what was read is what has been seen. */
  lemma ReleaseFrees(states: seq<State>, moves: seq<Move>, t: Tid, j: nat)
    requires LooseRun(states, moves) && j < |moves| && moves[j] == Own(Release(t))
    ensures t in states[j].threads && t in states[j + 1].threads
    ensures var th, after := states[j].threads[t], states[j + 1].threads[t];
      && th.lock in states[j].holder && states[j].holder[th.lock] == t && states[j + 1].holder == states[j].holder - {th.lock}
      && states[j + 1].shared == states[j].shared && after.phase.Ready? && after.key == th.key
      && th.phase.Releasing? && after.seen == (match th.phase.outcome case Got(pool) => Some(pool) case _ => th.seen)
  {
    assert LeadsAt(states, moves, j);
    LooseRunInv(states, moves, j);
    assert ThreadLockInv(states[j].shared.locks, states[j].holder, t, states[j].threads[t]);
  }

  /** Where a step of its own takes a thread: from waiting for the key's lock through the check to
      a fetch, or at once to the read, and with the lock given back to where it came from. */
  predicate Goes(e: Step, before: Phase, after: Phase, cached: Option<Pool>) {
    match e
    case Ref(_, _) => before == Idle && after == Ready
    case GetKeyLock(_) => before == Ready && after == Waiting
    case Acquire(_) => before == Waiting && after == Checking
    case TimeOut(_) => before == Waiting && after == Ready
    case Check(_) => before == Checking && after == if cached.Some? then Reading else Fetching
    case FetchOk(_, pool) => before == Fetching && after == Storing(pool)
    case FetchFail(_) => before == Fetching && after == Releasing(FetchError)
    case Store(_) => before.Storing? && after == Reading
    case Read(_) => before == Reading && after == Releasing(if cached.Some? then Got(cached.value) else KeyError)
    case Release(_) => before.Releasing? && after == Ready
    case Evict(_) => before == Ready && after == Idle
  }

  function Cached(s: State, k: Key): Option<Pool> { if k in s.shared.cache then Some(s.shared.cache[k]) else None }

  lemma ThreadGoes(states: seq<State>, moves: seq<Move>, j: nat)
    requires LooseRun(states, moves) && j < |moves| && moves[j].Own?
    ensures var e := moves[j].step;
      && e.t in states[j].threads && e.t in states[j + 1].threads
      && Goes(e, states[j].threads[e.t].phase, states[j + 1].threads[e.t].phase, Cached(states[j], states[j].threads[e.t].key))
      && states[j + 1].threads[e.t].key == (if e.Ref? then e.key else states[j].threads[e.t].key)
  {
    assert LeadsAt(states, moves, j);
  }

  /** No thread is ever stuck: whatever the others do, in each phase these steps are open to it,
      and only the acquisition of a lock depends on the others. */
  lemma NeverStuck(states: seq<State>, moves: seq<Move>, j: nat, t: Tid, k: Key, pool: Pool)
    requires LooseRun(states, moves) && j < |states| && t in states[j].threads
    ensures var s, th := states[j], states[j].threads[t];
      match th.phase
      case Idle => Possible(s, Own(Ref(t, k)))
      case Ready => Possible(s, Own(GetKeyLock(t))) && Possible(s, Own(Evict(t)))
      case Waiting => Possible(s, Own(TimeOut(t))) && (Possible(s, Own(Acquire(t))) <==> th.lock !in s.holder)
      case Checking => Possible(s, Own(Check(t)))
      case Fetching => Possible(s, Own(FetchOk(t, pool))) && Possible(s, Own(FetchFail(t)))
      case Storing(_) => Possible(s, Own(Store(t)))
      case Reading => Possible(s, Own(Read(t)))
      case Releasing(_) => Possible(s, Own(Release(t)))
  {
    LooseRunInv(states, moves, j);
    assert ThreadLockInv(states[j].shared.locks, states[j].holder, t, states[j].threads[t]);
  }

  /** The moves of a run within the discipline. */
  function OwnMoves(steps: seq<Step>): (moves: seq<Move>)
    ensures |moves| == |steps| && forall i :: 0 <= i < |steps| ==> moves[i] == Own(steps[i])
  {
    seq(|steps|, i requires 0 <= i < |steps| => Own(steps[i]))
  }

  /** So all of this holds of every run within the discipline. */
  lemma RunIsLoose(states: seq<State>, steps: seq<Step>)
    requires Run(states, steps)
    ensures LooseRun(states, OwnMoves(steps))
  {
    var moves := OwnMoves(steps);
    forall i | 0 <= i < |moves| ensures LeadsAt(states, moves, i) { assert Follows(states, steps, i); }
  }

  /** Within the discipline: the pool all collects of a period return was fetched for their key. */
  lemma SamePoolWasFetched(states: seq<State>, steps: seq<Step>, k: Key, i: nat, j: nat) returns (pool: Pool, n: nat)
    requires Run(states, steps) && i <= j < |steps| && Referenced(states, k, i, j)
    requires ReadsKey(states[i], steps[i], k) && ReadsKey(states[j], steps[j], k)
    ensures Returns(states[i + 1], steps[i].t, pool) && Returns(states[j + 1], steps[j].t, pool)
    ensures n < i && steps[n].FetchOk? && steps[n].pool == pool
    ensures steps[n].t in states[n].threads && states[n].threads[steps[n].t].key == k
  {
    pool := SamePool(states, steps, k, i, j);
    ReadReturns(states, steps, k, i);
    RunIsLoose(states, steps);
    CachedWasFetched(states, OwnMoves(steps), i);
    n :| n < i && FetchesAt(states, OwnMoves(steps), k, pool, n);
    assert OwnMoves(steps)[n] == Own(steps[n]);
  }

  // ------------------------------------------------- entries nobody references

  ghost predicate Stores(s: State, m: Move, k: Key) { m.Own? && StoresKey(s, m.step, k) }

  ghost predicate StoresAt(states: seq<State>, moves: seq<Move>, k: Key, n: nat) {
    n < |moves| && n < |states| && Stores(states[n], moves[n], k)
  }

  lemma EvictDrops(shared: Shared, key: Key, k: Key)
    ensures k in AfterEvict(shared, key).cache <==> k in shared.cache && !(key == k && Count(shared, k, 1) <= 1)
  {
  }

  /** What one move makes of the entry of a key. */
  lemma EntryAfterMove(s: State, m: Move, k: Key)
    requires Possible(s, m)
    ensures k in Moved(s, m).shared.cache <==> Stores(s, m, k) || (k in s.shared.cache && !Drops(s, m, k))
  {
    if m.Own? {
      CacheAfter(s, m.step);
      if m.step.Evict? { EvictDrops(s.shared, s.threads[m.step.t].key, k); }
    } else if m.Stray? {
      EvictDrops(s.shared, m.key, k);
    }
  }

  /** The entry stored by move `i` has met no dropping evict before move `j`. */
  ghost predicate Stands(states: seq<State>, moves: seq<Move>, k: Key, i: nat, j: nat) {
    i < j && StoresAt(states, moves, k, i) && forall n: nat :: i < n < j ==> !DropsAt(states, moves, k, n)
  }

  lemma StandsOn(states: seq<State>, moves: seq<Move>, k: Key, i: nat, j: nat)
    requires i < j
    ensures Stands(states, moves, k, i, j + 1) <==> Stands(states, moves, k, i, j) && !DropsAt(states, moves, k, j)
  {
  }

  ghost predicate StandsSome(states: seq<State>, moves: seq<Move>, k: Key, j: nat) {
    exists i: nat :: Stands(states, moves, k, i, j)
  }

  lemma StandsStep(states: seq<State>, moves: seq<Move>, k: Key, j: nat)
    ensures StandsSome(states, moves, k, j + 1) <==>
      StoresAt(states, moves, k, j) || (StandsSome(states, moves, k, j) && !DropsAt(states, moves, k, j))
  {
    if StoresAt(states, moves, k, j) { assert Stands(states, moves, k, j, j + 1); }
    if StandsSome(states, moves, k, j) {
      var i: nat :| Stands(states, moves, k, i, j);
      StandsOn(states, moves, k, i, j);
    }
    if StandsSome(states, moves, k, j + 1) {
      var i: nat :| Stands(states, moves, k, i, j + 1);
      if i < j { StandsOn(states, moves, k, i, j); }
    }
  }

  /** Over every run an entry is there exactly when, since some store of it, no evict of its
      key found a count of at most one. */
  lemma {:induction false} PresentIff(states: seq<State>, moves: seq<Move>, k: Key, j: nat)
    requires LooseRun(states, moves) && j < |states|
    ensures k in states[j].shared.cache <==> StandsSome(states, moves, k, j)
  {
    if j > 0 {
      PresentIff(states, moves, k, j - 1);
      assert LeadsAt(states, moves, j - 1);
      EntryAfterMove(states[j - 1], moves[j - 1], k);
      StandsStep(states, moves, k, j - 1);
    }
  }

  /** An entry left behind: cached, and no thread is between beginning and leaving with its key. */
  ghost predicate Outlives(s: State, k: Key) { k in s.shared.cache && Holders(s.threads, k) == {} }

  /** When all threads are done with a key its entry is left behind exactly when, since it was
      stored, no evict of the key found a count of at most one. */
  lemma OutlivesIff(states: seq<State>, moves: seq<Move>, k: Key, j: nat)
    requires LooseRun(states, moves) && j < |states| && Holders(states[j].threads, k) == {}
    ensures Outlives(states[j], k) <==> StandsSome(states, moves, k, j)
  {
    PresentIff(states, moves, k, j);
  }

  ghost predicate EndsIn(states: seq<State>, moves: seq<Move>, s: State) {
    LooseRun(states, moves) && states[|states| - 1] == s
  }

  lemma GoesOn(states: seq<State>, moves: seq<Move>, s: State, m: Move) returns (more: seq<State>)
    requires EndsIn(states, moves, s) && Possible(s, m)
    ensures more == states + [Moved(s, m)] && EndsIn(more, moves + [m], Moved(s, m))
  {
    more := states + [Moved(s, m)];
    var all := moves + [m];
    forall i | 0 <= i < |all| ensures LeadsAt(more, all, i) {
      if i < |moves| { assert LeadsAt(states, moves, i); }
    }
  }

  /** Where two threads hold the key and one of them has its entry cached and is about to read. */
  predicate TwoHold(s: State, t: Tid, u: Tid, k: Key) {
    && t in s.threads && u in s.threads && s.threads[t].phase.Reading? && s.threads[u].phase.Ready?
    && s.threads[t].key == k == s.threads[u].key
    && Count(s.shared, k, 0) == 2 && k in s.shared.cache && s.threads[t].lock in s.holder
  }

  lemma BothReference(t: Tid, u: Tid, k: Key) returns (states: seq<State>, moves: seq<Move>, s: State)
    requires t != u
    ensures moves == [] + [Own(Ref(t, k))] + [Own(Ref(u, k))] && EndsIn(states, moves, s)
    ensures s.shared == Shared(map[], map[], map[k := 2], 0) && s.holder == map[]
    ensures s.threads == map[t := Thread(Ready, k, 0, None), u := Thread(Ready, k, 0, None)]
  {
    var idle := Thread(Idle, k, 0, None);
    s := State(Shared(map[], map[], map[], 0), map[], map[t := idle, u := idle]);
    states, moves := [s], [];
    states := GoesOn(states, moves, s, Own(Ref(t, k)));
    s, moves := Moved(s, Own(Ref(t, k))), moves + [Own(Ref(t, k))];
    states := GoesOn(states, moves, s, Own(Ref(u, k)));
    s, moves := Moved(s, Own(Ref(u, k))), moves + [Own(Ref(u, k))];
  }

  lemma EntersLock(states0: seq<State>, moves0: seq<Move>, s0: State, t: Tid) returns (states: seq<State>, moves: seq<Move>, s: State)
    requires EndsIn(states0, moves0, s0) && t in s0.threads && s0.threads[t].phase.Ready?
    requires s0.shared.locks == map[] && s0.holder == map[]
    ensures moves == moves0 + [Own(GetKeyLock(t))] + [Own(Acquire(t))] && EndsIn(states, moves, s)
    ensures s.threads == s0.threads[t := s0.threads[t].(phase := Checking, lock := s0.shared.nextLock)]
    ensures s.shared.cache == s0.shared.cache && s.shared.refcounts == s0.shared.refcounts && s.threads[t].lock in s.holder
  {
    states, moves, s := states0, moves0, s0;
    states := GoesOn(states, moves, s, Own(GetKeyLock(t)));
    s, moves := Moved(s, Own(GetKeyLock(t))), moves + [Own(GetKeyLock(t))];
    states := GoesOn(states, moves, s, Own(Acquire(t)));
    s, moves := Moved(s, Own(Acquire(t))), moves + [Own(Acquire(t))];
  }

  lemma FetchesAndStores(states0: seq<State>, moves0: seq<Move>, s0: State, t: Tid, pool: Pool)
    returns (states: seq<State>, moves: seq<Move>, s: State)
    requires EndsIn(states0, moves0, s0) && t in s0.threads && s0.threads[t].phase.Checking?
    requires s0.threads[t].key !in s0.shared.cache
    ensures moves == moves0 + [Own(Check(t))] + [Own(FetchOk(t, pool))] + [Own(Store(t))] && EndsIn(states, moves, s)
    ensures s.threads == s0.threads[t := s0.threads[t].(phase := Reading)] && s.holder == s0.holder
    ensures s.shared == s0.shared.(cache := s0.shared.cache[s0.threads[t].key := pool])
  {
    states, moves, s := states0, moves0, s0;
    states := GoesOn(states, moves, s, Own(Check(t)));
    s, moves := Moved(s, Own(Check(t))), moves + [Own(Check(t))];
    states := GoesOn(states, moves, s, Own(FetchOk(t, pool)));
    s, moves := Moved(s, Own(FetchOk(t, pool))), moves + [Own(FetchOk(t, pool))];
    states := GoesOn(states, moves, s, Own(Store(t)));
    s, moves := Moved(s, Own(Store(t))), moves + [Own(Store(t))];
  }

  /** With two holders a stray evict alone breaks nothing; the other holder's own evict then does. */
  lemma DropsUnderReader(states0: seq<State>, moves0: seq<Move>, s0: State, t: Tid, u: Tid, k: Key)
    returns (states: seq<State>, moves: seq<Move>, s: State)
    requires t != u && EndsIn(states0, moves0, s0) && TwoHold(s0, t, u, k)
    ensures moves == moves0 + [Stray(k)] + [Own(Evict(u))] + [Own(Read(t))] && EndsIn(states, moves, s)
    ensures states0 <= states && t in s.threads && s.threads[t].phase == Releasing(KeyError)
  {
    states, moves, s := states0, moves0, s0;
    states := GoesOn(states, moves, s, Stray(k));
    s, moves := Moved(s, Stray(k)), moves + [Stray(k)];
    states := GoesOn(states, moves, s, Own(Evict(u)));
    s, moves := Moved(s, Own(Evict(u))), moves + [Own(Evict(u))];
    states := GoesOn(states, moves, s, Own(Read(t)));
    s, moves := Moved(s, Own(Read(t))), moves + [Own(Read(t))];
  }

  /** A run in which a read fails although its thread was not the only holder at the stray evict. */
  lemma ReaderLosesEntry(t: Tid, u: Tid, k: Key, pool: Pool)
    returns (states: seq<State>, moves: seq<Move>, early: State)
    requires t != u
    ensures LooseRun(states, moves) && early in states && Holders(early.threads, k) == {t, u} && TwoHold(early, t, u, k)
    ensures |moves| == 10 && moves[7..] == [Stray(k), Own(Evict(u)), Own(Read(t))] && MissesAt(states, t, 9)
  {
    var s, later, all;
    states, moves, s := BothReference(t, u, k);
    states, moves, s := EntersLock(states, moves, s, t);
    states, moves, early := FetchesAndStores(states, moves, s, t, pool);
    later, all, s := DropsUnderReader(states, moves, early, t, u, k);
    assert early == states[|states| - 1] == later[|states| - 1];
    states, moves := later, all;
  }

  lemma BeginsAlone(t: Tid, k: Key) returns (states: seq<State>, moves: seq<Move>, s: State)
    ensures moves == [] + [Begin(t, k)] && EndsIn(states, moves, s)
    ensures s == State(Shared(map[], map[], map[], 0), map[], map[t := Thread(Ready, k, 0, None)])
  {
    s := State(Shared(map[], map[], map[], 0), map[], map[t := Thread(Idle, k, 0, None)]);
    states, moves := [s], [];
    states := GoesOn(states, moves, s, Begin(t, k));
    s, moves := Moved(s, Begin(t, k)), moves + [Begin(t, k)];
  }

  lemma ReadsAndQuits(states0: seq<State>, moves0: seq<Move>, s0: State, t: Tid)
    returns (states: seq<State>, moves: seq<Move>, s: State)
    requires EndsIn(states0, moves0, s0) && t in s0.threads && s0.threads[t].phase.Reading?
    requires s0.threads[t].lock in s0.holder
    ensures moves == moves0 + [Own(Read(t))] + [Own(Release(t))] + [Quit(t)] && EndsIn(states, moves, s)
    ensures s.shared == s0.shared && s.threads.Keys == s0.threads.Keys && s.threads[t].phase.Idle?
  {
    states, moves, s := states0, moves0, s0;
    states := GoesOn(states, moves, s, Own(Read(t)));
    s, moves := Moved(s, Own(Read(t))), moves + [Own(Read(t))];
    states := GoesOn(states, moves, s, Own(Release(t)));
    s, moves := Moved(s, Own(Release(t))), moves + [Own(Release(t))];
    states := GoesOn(states, moves, s, Quit(t));
    s, moves := Moved(s, Quit(t)), moves + [Quit(t)];
  }

  /** A run of one thread that collects without a reference and leaves its entry behind. */
  lemma LeavesEntryBehind(t: Tid, k: Key, pool: Pool) returns (states: seq<State>, moves: seq<Move>, s: State)
    ensures |moves| == 9 && moves[0] == Begin(t, k) && moves[8] == Quit(t) && EndsIn(states, moves, s)
    ensures Outlives(s, k) && s.shared.refcounts == map[]
  {
    states, moves, s := BeginsAlone(t, k);
    states, moves, s := EntersLock(states, moves, s, t);
    states, moves, s := FetchesAndStores(states, moves, s, t, pool);
    states, moves, s := ReadsAndQuits(states, moves, s, t);
  }
}
