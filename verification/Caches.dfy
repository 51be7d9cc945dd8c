/**
 * The two refreshed-on-demand caches behind a read-write lock: discovery metadata
 * and the delegation key. Each request checks under the read lock, and only when the
 * value is stale takes the write lock, checks again and fetches.
 */
module Caches {
  import opened Basics

  /** A fetched value: when its fetch began and ended, and from when on it counts as stale. */
  datatype Entry = Entry(startedAt: int, fetchedAt: int, freshUntil: int)

  predicate Stale(e: Entry, now: int) { now >= e.freshUntil }

  /** Where a request stands. */
  datatype Task =
    | Arrived
    | Waiting                            // found nothing fresh, wants the write lock
    | Holding                            // has the write lock, has not looked again
    | Fetching(startedAt: int)           // still holds the write lock
    | Returned(entry: Entry, at: int, cached: bool)
    | Failed

  predicate HoldsLock(t: Task) { t.Holding? || t.Fetching? }

  predicate Finished(t: Task) { t.Returned? || t.Failed? }

  datatype Cache = Cache(
    now: int,
    cell: Option<Entry>,
    writer: Option<nat>,
    tasks: map<nat, Task>,
    log: seq<Entry>)                     // successful fetches, oldest first

  datatype Step =
    | Tick(elapsed: nat)
    | Arrive(t: nat)
    | ReadCheck(t: nat)
    | Acquire(t: nat)
    | Recheck(t: nat)
    | Fetched(t: nat, freshUntil: int)
    | FetchFailed(t: nat)
    | Cancel(t: nat)                     // the request goes away; its guard is dropped

  /** What the source of the values says about how long they stay fresh. */
  datatype Policy =
    | AnyFreshness
    | SinceFetched(ttl: nat)   // metadata: a fixed time after the fetch ended
    | SinceStarted(ttl: nat)   // the key: requested for a fixed time from when the fetch began

  predicate FreshnessFits(policy: Policy, e: Entry) {
    match policy
    case AnyFreshness => true
    case SinceFetched(ttl) => e.freshUntil == e.fetchedAt + ttl
    case SinceStarted(ttl) => e.freshUntil == e.startedAt + ttl
  }

  predicate Enabled(s: Cache, e: Step, policy: Policy) {
    match e
    case Tick(_) => true
    case Arrive(t) => t !in s.tasks
    case ReadCheck(t) => t in s.tasks && s.tasks[t].Arrived? && s.writer.None?
    case Acquire(t) => t in s.tasks && s.tasks[t].Waiting? && s.writer.None?
    case Recheck(t) => t in s.tasks && s.tasks[t].Holding?
    case Fetched(t, freshUntil) =>
      t in s.tasks && s.tasks[t].Fetching? && FreshnessFits(policy, Entry(s.tasks[t].startedAt, s.now, freshUntil))
    case FetchFailed(t) => t in s.tasks && s.tasks[t].Fetching?
    case Cancel(t) => t in s.tasks && !Finished(s.tasks[t])
  }

  predicate HasFresh(s: Cache) { s.cell.Some? && !Stale(s.cell.value, s.now) }

  function Release(s: Cache, t: nat): Option<nat> { if s.writer == Some(t) then None else s.writer }

  function Next(s: Cache, e: Step, policy: Policy): Cache
    requires Enabled(s, e, policy)
  {
    match e
    case Tick(elapsed) => s.(now := s.now + elapsed)
    case Arrive(t) => s.(tasks := s.tasks[t := Arrived])
    case ReadCheck(t) =>
      s.(tasks := s.tasks[t := if HasFresh(s) then Returned(s.cell.value, s.now, true) else Waiting])
    case Acquire(t) => s.(tasks := s.tasks[t := Holding], writer := Some(t))
    case Recheck(t) =>
      s.(tasks := s.tasks[t := if HasFresh(s) then Returned(s.cell.value, s.now, true) else Fetching(s.now)],
         writer := if HasFresh(s) then None else s.writer)
    case Fetched(t, freshUntil) =>
      var entry := Entry(s.tasks[t].startedAt, s.now, freshUntil);
      s.(tasks := s.tasks[t := Returned(entry, s.now, false)], writer := None, cell := Some(entry), log := s.log + [entry])
    case FetchFailed(t) => s.(tasks := s.tasks[t := Failed], writer := None)
    case Cancel(t) => s.(tasks := s.tasks[t := Failed], writer := Release(s, t))
  }

  predicate ValidRun(s: Cache, steps: seq<Step>, policy: Policy)
    decreases steps
  {
    steps == [] || (Enabled(s, steps[0], policy) && ValidRun(Next(s, steps[0], policy), steps[1..], policy))
  }

  function After(s: Cache, steps: seq<Step>, policy: Policy): Cache
    requires ValidRun(s, steps, policy)
    decreases steps
  {
    if steps == [] then s else After(Next(s, steps[0], policy), steps[1..], policy)
  }

  predicate Initial(s: Cache) { s.cell.None? && s.writer.None? && s.tasks == map[] && s.log == [] }

  // ---------------------------------------------------------------- invariants

  /** The write lock is held by exactly the one task that is past it. */
  ghost predicate LockOk(s: Cache) {
    && (s.writer.Some? ==> s.writer.value in s.tasks && HoldsLock(s.tasks[s.writer.value]))
    && (forall t :: t in s.tasks && HoldsLock(s.tasks[t]) ==> s.writer == Some(t))
  }

  function LastOf(log: seq<Entry>): Option<Entry> { if log == [] then None else Some(log[|log| - 1]) }

  /** A fetch begins only once the value before it is stale. */
  ghost predicate SpacedOut(log: seq<Entry>) {
    forall i :: 0 <= i < |log| - 1 ==> log[i].freshUntil <= log[i + 1].startedAt
  }

  ghost predicate LogOk(s: Cache, policy: Policy) {
    && s.cell == LastOf(s.log)
    && SpacedOut(s.log)
    && (forall i :: 0 <= i < |s.log| ==> s.log[i].startedAt <= s.log[i].fetchedAt <= s.now)
    && (forall i :: 0 <= i < |s.log| ==> FreshnessFits(policy, s.log[i]))
  }

  ghost predicate TaskOk(t: Task, cell: Option<Entry>, log: seq<Entry>, now: int) {
    && (t.Fetching? ==> t.startedAt <= now && (cell.Some? ==> cell.value.freshUntil <= t.startedAt))
    && (t.Returned? ==> t.entry in log && t.at <= now && (if t.cached then t.at < t.entry.freshUntil else t.at == t.entry.fetchedAt))
  }

  ghost predicate TasksOk(s: Cache) {
    forall t :: t in s.tasks ==> TaskOk(s.tasks[t], s.cell, s.log, s.now)
  }

  ghost predicate CacheOk(s: Cache, policy: Policy) { LockOk(s) && LogOk(s, policy) && TasksOk(s) }

  lemma LockKept(s: Cache, e: Step, policy: Policy)
    requires LockOk(s) && Enabled(s, e, policy)
    ensures LockOk(Next(s, e, policy))
  {
  }

  lemma LogKept(s: Cache, e: Step, policy: Policy)
    requires LogOk(s, policy) && TasksOk(s) && Enabled(s, e, policy)
    ensures LogOk(Next(s, e, policy), policy)
  {
    if e.Fetched? {
      assert TaskOk(s.tasks[e.t], s.cell, s.log, s.now);
    }
  }

  lemma TasksKept(s: Cache, e: Step, policy: Policy)
    requires LockOk(s) && LogOk(s, policy) && TasksOk(s) && Enabled(s, e, policy)
    ensures TasksOk(Next(s, e, policy))
  {
    var s' := Next(s, e, policy);
    forall t | t in s'.tasks ensures TaskOk(s'.tasks[t], s'.cell, s'.log, s'.now) {
      if t in s.tasks {
        assert TaskOk(s.tasks[t], s.cell, s.log, s.now);
      }
    }
  }

  lemma {:induction false} RunKeepsCache(s: Cache, steps: seq<Step>, policy: Policy)
    requires CacheOk(s, policy) && ValidRun(s, steps, policy)
    ensures CacheOk(After(s, steps, policy), policy)
    decreases steps
  {
    if steps != [] {
      LockKept(s, steps[0], policy);
      LogKept(s, steps[0], policy);
      TasksKept(s, steps[0], policy);
      RunKeepsCache(Next(s, steps[0], policy), steps[1..], policy);
    }
  }

  // ---------------------------------------------------------------- what callers may rely on

  /**
   * However requests interleave, fail and go away: what a request gets back was not yet stale when it was
   * looked at, or was fetched at that very moment.
   */
  lemma ReturnedIsFreshOrNew(s0: Cache, steps: seq<Step>, policy: Policy, t: nat)
    requires Initial(s0) && ValidRun(s0, steps, policy)
    ensures var s := After(s0, steps, policy);
      t in s.tasks && s.tasks[t].Returned? ==>
        if s.tasks[t].cached then !Stale(s.tasks[t].entry, s.tasks[t].at) else s.tasks[t].at == s.tasks[t].entry.fetchedAt
  {
    RunKeepsCache(s0, steps, policy);
    var s := After(s0, steps, policy);
    if t in s.tasks {
      assert TaskOk(s.tasks[t], s.cell, s.log, s.now);
    }
  }

  lemma {:induction false} SpacingAddsUp(log: seq<Entry>, i: nat, j: nat, ttl: nat)
    requires i <= j < |log| && SpacedOut(log)
    requires forall k :: 0 <= k < |log| ==> log[k].startedAt <= log[k].fetchedAt && log[k].freshUntil == log[k].fetchedAt + ttl
    ensures log[j].fetchedAt - log[i].fetchedAt >= (j - i) * ttl
    decreases j
  {
    if i < j {
      SpacingAddsUp(log, i, j - 1, ttl);
      assert log[j - 1].freshUntil <= log[j].startedAt;
    }
  }

  /** `METADATA_TTL`, in seconds. */
  const METADATA_TTL: nat := 12 * 60 * 60

  /**
   * Successful discoveries are at least twelve hours apart, however many requests find the metadata stale at once.
   */
  lemma DiscoveriesAreSpaced(s0: Cache, steps: seq<Step>, i: nat, j: nat)
    requires Initial(s0) && ValidRun(s0, steps, SinceFetched(METADATA_TTL))
    requires i < j < |After(s0, steps, SinceFetched(METADATA_TTL)).log|
    ensures var log := After(s0, steps, SinceFetched(METADATA_TTL)).log;
      log[j].fetchedAt - log[i].fetchedAt >= (j - i) * 43_200
  {
    RunKeepsCache(s0, steps, SinceFetched(METADATA_TTL));
    SpacingAddsUp(After(s0, steps, SinceFetched(METADATA_TTL)).log, i, j, METADATA_TTL);
  }

  /** Nobody waits for ever on the lock: while any request is unfinished, some request can take its next step. */
  lemma SomebodyCanGoOn(s0: Cache, steps: seq<Step>, policy: Policy, t: nat) returns (e: Step)
    requires Initial(s0) && ValidRun(s0, steps, policy)
    requires t in After(s0, steps, policy).tasks && !Finished(After(s0, steps, policy).tasks[t])
    ensures Enabled(After(s0, steps, policy), e, policy) && (e.ReadCheck? || e.Acquire? || e.Recheck? || e.FetchFailed?)
  {
    RunKeepsCache(s0, steps, policy);
    var s := After(s0, steps, policy);
    var who := if s.writer.Some? then s.writer.value else t;
    match s.tasks[who]
    case Arrived => e := ReadCheck(who);
    case Waiting => e := Acquire(who);
    case Holding => e := Recheck(who);
    case Fetching(_) => e := FetchFailed(who);
  }

  // ---------------------------------------------------------------- the delegation key

  /** `DELEGATION_KEY_TTL`, in seconds: how long a key is requested for. */
  const DELEGATION_KEY_TTL: nat := 6 * 60 * 60

  /** `DELEGATION_KEY_SKEW`, in seconds: a key this close to its expiry is replaced. */
  const DELEGATION_KEY_SKEW: nat := 10 * 60

  const KEY_POLICY := SinceStarted(DELEGATION_KEY_TTL - DELEGATION_KEY_SKEW)

  function KeyExpiry(e: Entry): int { e.freshUntil + DELEGATION_KEY_SKEW }

  /** A key from the cache has more than the skew left when it is checked; a new one is as the service made it. */
  lemma CachedKeyHasTimeLeft(s0: Cache, steps: seq<Step>, t: nat)
    requires Initial(s0) && ValidRun(s0, steps, AnyFreshness)
    ensures var s := After(s0, steps, AnyFreshness);
      t in s.tasks && s.tasks[t].Returned? && s.tasks[t].cached ==>
        KeyExpiry(s.tasks[t].entry) > s.tasks[t].at + 600
  {
    ReturnedIsFreshOrNew(s0, steps, AnyFreshness, t);
  }

  /** A link signed with a returned key at once, for `ttl` seconds, is over before the key is. */
  predicate KeyOutlivesLink(t: Task, ttl: nat)
    requires t.Returned?
  {
    KeyExpiry(t.entry) > t.at + ttl
  }

  /** In every run, every key the cache hands out outlives the link it signs. */
  ghost predicate CachedKeysOutliveLinks(ttl: nat) {
    forall s0: Cache, steps: seq<Step>, t: nat ::
      Initial(s0) && ValidRun(s0, steps, KEY_POLICY)
      && t in After(s0, steps, KEY_POLICY).tasks
      && After(s0, steps, KEY_POLICY).tasks[t].Returned? && After(s0, steps, KEY_POLICY).tasks[t].cached ==>
        KeyOutlivesLink(After(s0, steps, KEY_POLICY).tasks[t], ttl)
  }

  lemma {:induction false} OneMoreStep(s: Cache, steps: seq<Step>, e: Step, policy: Policy)
    requires ValidRun(s, steps, policy) && Enabled(After(s, steps, policy), e, policy)
    ensures ValidRun(s, steps + [e], policy)
    ensures After(s, steps + [e], policy) == Next(After(s, steps, policy), e, policy)
    decreases steps
  {
    if steps == [] {
      assert [] + [e] == [e] && [e][1..] == [];
    } else {
      assert (steps + [e])[1..] == steps[1..] + [e];
      OneMoreStep(Next(s, steps[0], policy), steps[1..], e, policy);
    }
  }

  /** A first request fetches a key at time zero. */
  lemma FirstFetch() returns (s0: Cache, steps: seq<Step>)
    ensures Initial(s0) && ValidRun(s0, steps, KEY_POLICY)
    ensures var e := Entry(0, 0, DELEGATION_KEY_TTL - DELEGATION_KEY_SKEW);
      After(s0, steps, KEY_POLICY) == Cache(0, Some(e), None, map[0 := Returned(e, 0, false)], [e])
  {
    var good := DELEGATION_KEY_TTL - DELEGATION_KEY_SKEW;
    s0 := Cache(0, None, None, map[], []);
    OneMoreStep(s0, [], Arrive(0), KEY_POLICY);
    steps := [] + [Arrive(0)];
    OneMoreStep(s0, steps, ReadCheck(0), KEY_POLICY);
    steps := steps + [ReadCheck(0)];
    assert After(s0, steps, KEY_POLICY) == Cache(0, None, None, map[0 := Waiting], []);
    OneMoreStep(s0, steps, Acquire(0), KEY_POLICY);
    steps := steps + [Acquire(0)];
    OneMoreStep(s0, steps, Recheck(0), KEY_POLICY);
    steps := steps + [Recheck(0)];
    assert After(s0, steps, KEY_POLICY) == Cache(0, None, Some(0), map[0 := Fetching(0)], []);
    OneMoreStep(s0, steps, Fetched(0, good), KEY_POLICY);
    steps := steps + [Fetched(0, good)];
    assert [] + [Entry(0, 0, good)] == [Entry(0, 0, good)];
  }

  /** A request one second before the key counts as stale still gets it, with one second more than the skew left. */
  lemma LastCachedReturn() returns (s0: Cache, steps: seq<Step>)
    ensures Initial(s0) && ValidRun(s0, steps, KEY_POLICY)
    ensures var t := After(s0, steps, KEY_POLICY).tasks;
      1 in t && t[1].Returned? && t[1].cached && KeyExpiry(t[1].entry) == t[1].at + 601
  {
    s0, steps := FirstFetch();
    var wait := DELEGATION_KEY_TTL - DELEGATION_KEY_SKEW - 1;
    OneMoreStep(s0, steps, Tick(wait), KEY_POLICY);
    steps := steps + [Tick(wait)];
    OneMoreStep(s0, steps, Arrive(1), KEY_POLICY);
    steps := steps + [Arrive(1)];
    OneMoreStep(s0, steps, ReadCheck(1), KEY_POLICY);
    steps := steps + [ReadCheck(1)];
  }

  /**
   * Over all runs: every key from the cache outlives the link it signs if and only if links last no longer than the
   * skew. With longer links there is a run in which a link outlasts its key.
   */
  lemma KeysOutliveLinksExactly(ttl: nat)
    ensures CachedKeysOutliveLinks(ttl) <==> ttl <= 600
  {
    if ttl <= DELEGATION_KEY_SKEW {
      forall s0: Cache, steps: seq<Step>, t: nat |
        Initial(s0) && ValidRun(s0, steps, KEY_POLICY)
        && t in After(s0, steps, KEY_POLICY).tasks
        && After(s0, steps, KEY_POLICY).tasks[t].Returned? && After(s0, steps, KEY_POLICY).tasks[t].cached
        ensures KeyOutlivesLink(After(s0, steps, KEY_POLICY).tasks[t], ttl)
      {
        ReturnedIsFreshOrNew(s0, steps, KEY_POLICY, t);
      }
    } else {
      var s0, steps := LastCachedReturn();
      assert !KeyOutlivesLink(After(s0, steps, KEY_POLICY).tasks[1], ttl);
    }
  }
}
