/** One retention sweep, as the method runs it: read the paths, delete the blobs, then the rows. */
module Retention {
  import opened Basics
  import opened JobStatuses
  import opened Tables
  import opened ProtocolSafety
  import opened ProtocolMedia

  /** One day in the database clock's unit, microseconds. */
  const DAY := 86_400_000_000

  /** `i32::try_from(retention_days)`, saturating at the largest interval. */
  function Window(retentionDays: nat): (window: nat)
    ensures window == (if retentionDays <= 2_147_483_647 then retentionDays else 2_147_483_647) * 86_400_000_000
  {
    Min(retentionDays, 0x7fff_ffff) * DAY
  }

  datatype SweepReport = SweepReport(jobsDeleted: nat, blobsDeleted: nat, blobsFailed: nat)

  predicate TouchedAnything(report: SweepReport): (touched: bool)
    ensures !touched <==> report == SweepReport(0, 0, 0)
  {
    report.jobsDeleted > 0 || report.blobsDeleted > 0 || report.blobsFailed > 0
  }

  /** The private container; `refuses` says which deletes the service turns down. */
  class Container {
    var blobs: set<string>

    constructor (blobs: set<string>)
      ensures this.blobs == blobs
    {
      this.blobs := blobs;
    }

    /** A blob that is already gone counts as deleted. */
    method Delete(path: string, refused: bool) returns (ok: bool)
      modifies this
      ensures ok == !refused
      ensures blobs == if ok then old(blobs) - {path} else old(blobs)
    {
      ok := !refused;
      if ok {
        blobs := blobs - {path};
      }
    }
  }

  /** The assets of jobs created more than the window ago. */
  function ExpiredAssets(assets: Assets, jobs: Jobs, now: int, window: nat): set<nat> {
    set a | a in assets && assets[a].jobId in jobs && jobs[assets[a].jobId].createdAt + window < now
  }

  function PathsOf(assets: Assets, keys: set<nat>): set<string> {
    set a | a in keys && a in assets :: assets[a].path
  }

  lemma OnePathMore(assets: Assets, keys: set<nat>, a: nat, paths: seq<string>)
    requires a in assets && (set p | p in paths) == PathsOf(assets, keys)
    ensures (set p | p in paths + [assets[a].path]) == PathsOf(assets, keys + {a})
  {
    var longer := paths + [assets[a].path];
    assert forall p :: p in longer <==> p in paths || p == assets[a].path;
    assert PathsOf(assets, keys + {a}) == PathsOf(assets, keys) + {assets[a].path};
  }

  /** The first query: one path per asset of an expired job, in no particular order. */
  method PathsOlderThan(db: Database, now: int, window: nat) returns (paths: seq<string>)
    ensures |paths| == |ExpiredAssets(db.assets, db.jobs, now, window)|
    ensures (set p | p in paths) == PathsOf(db.assets, ExpiredAssets(db.assets, db.jobs, now, window))
    ensures (set p | p in paths) == ExpiredPaths(db.assets, db.jobs, now, window)
  {
    paths := [];
    var left := set a | a in db.assets && db.assets[a].jobId in db.jobs && Expired(db.jobs[db.assets[a].jobId], now, window);
    ghost var all := left;
    assert all == ExpiredAssets(db.assets, db.jobs, now, window);
    while left != {}
      invariant left <= all && all == ExpiredAssets(db.assets, db.jobs, now, window)
      invariant |paths| + |left| == |all|
      invariant (set p | p in paths) == PathsOf(db.assets, all - left)
      decreases left
    {
      var a :| a in left;
      OnePathMore(db.assets, all - left, a, paths);
      assert all - (left - {a}) == (all - left) + {a};
      paths := paths + [db.assets[a].path];
      left := left - {a};
    }
    assert all - left == all;
    assert PathsOf(db.assets, all) == ExpiredPaths(db.assets, db.jobs, now, window);
  }

  /** Exactly the rows created no more than the window before `now`, as they were. */
  ghost predicate JobsWithin(before: Jobs, after: Jobs, now: int, window: nat) {
    && (forall id :: id in after <==> id in before && now <= before[id].createdAt + window)
    && (forall id :: id in after ==> after[id] == before[id])
  }

  /** The paths, by position, that the container refuses to delete. */
  function Refused(paths: seq<string>, refuses: string -> bool): set<nat> {
    set i: nat | i < |paths| && refuses(paths[i])
  }

  lemma OneMoreRefused(paths: seq<string>, path: string, refuses: string -> bool)
    ensures |Refused(paths + [path], refuses)| == |Refused(paths, refuses)| + if refuses(path) then 1 else 0
  {
    assert Refused(paths + [path], refuses) == Refused(paths, refuses) + if refuses(path) then {|paths|} else {};
  }

  /**
   * `firstNow` and `secondNow` are the database times of the two queries; `refuses` is what the
   * container answers to each delete.
   */
  method Sweep(db: Database, store: Container, retentionDays: nat, firstNow: int, secondNow: int, refuses: string -> bool)
    returns (report: SweepReport, paths: seq<string>)
    requires db.Valid(firstNow) && firstNow <= secondNow
    modifies db, store
    ensures report.blobsDeleted + report.blobsFailed == |paths|
      == |ExpiredAssets(old(db.assets), old(db.jobs), firstNow, Window(retentionDays))|
    ensures report.blobsFailed == |set i: nat | i < |paths| && refuses(paths[i])|
    ensures (set p | p in paths)
      == PathsOf(old(db.assets), ExpiredAssets(old(db.assets), old(db.jobs), firstNow, Window(retentionDays)))
    ensures store.blobs == old(store.blobs) - set p | p in paths && !refuses(p)
    ensures JobsWithin(old(db.jobs), db.jobs, secondNow, Window(retentionDays))
    ensures AssetsFollow(old(db.assets), db.assets, db.jobs)
    ensures report.jobsDeleted == |set id | id in old(db.jobs) && old(db.jobs)[id].createdAt + Window(retentionDays) < secondNow|
  {
    var window := (if retentionDays < 0x7fff_ffff then retentionDays else 0x7fff_ffff) * DAY;
    paths := PathsOlderThan(db, firstNow, window);
    var deleted, failed := 0, 0;
    var i := 0;
    while i < |paths|
      invariant 0 <= i <= |paths|
      invariant deleted + failed == i && failed == |Refused(paths[..i], refuses)|
      invariant store.blobs == old(store.blobs) - set p | p in paths[..i] && !refuses(p)
      invariant db.jobs == old(db.jobs) && db.assets == old(db.assets) && db.Valid(firstNow)
    {
      var ok := store.Delete(paths[i], refuses(paths[i]));
      if ok {
        deleted := deleted + 1;
      } else {
        failed := failed + 1;
      }
      OneMoreRefused(paths[..i], paths[i], refuses);
      assert paths[..i + 1] == paths[..i] + [paths[i]];
      i := i + 1;
    }
    assert paths[..i] == paths && Refused(paths, refuses) == set i: nat | i < |paths| && refuses(paths[i]);
    var jobsDeleted := db.DeleteOlderThan(secondNow, window);
    report := SweepReport(jobsDeleted, deleted, failed);
  }

  // ---------------------------------------------------------------- an undisturbed sweep

  /** Rows and blobs after a sweep whose queries see the same time and whose deletes all succeed. */
  datatype Stored = Stored(jobs: Jobs, assets: Assets, blobs: set<string>)

  function Swept(s: Stored, now: int, retention: nat): Stored {
    var jobs := DeleteExpired(s.jobs, now, retention);
    Stored(jobs, Cascade(s.assets, jobs), s.blobs - ExpiredPaths(s.assets, s.jobs, now, retention))
  }

  lemma SweptExactly(s: Stored, t: Stored, now: int, window: nat)
    requires JobsWithin(s.jobs, t.jobs, now, window) && AssetsFollow(s.assets, t.assets, t.jobs)
    requires t.blobs == s.blobs - PathsOf(s.assets, ExpiredAssets(s.assets, s.jobs, now, window))
    ensures t == Swept(s, now, window)
    ensures ExpiredAssets(t.assets, t.jobs, now, window) == {}
    ensures (set id | id in t.jobs && t.jobs[id].createdAt + window < now) == {}
  {
    assert t.jobs == DeleteExpired(s.jobs, now, window);
    assert t.assets == Cascade(s.assets, t.jobs);
    assert PathsOf(s.assets, ExpiredAssets(s.assets, s.jobs, now, window)) == ExpiredPaths(s.assets, s.jobs, now, window);
  }

  /** Every asset has a live job and its own path, and no two assets share one. */
  ghost predicate Consistent(s: Stored) {
    && (forall a :: a in s.assets ==> s.assets[a].jobId in s.jobs)
    && (forall a, b :: a in s.assets && b in s.assets && s.assets[a].path == s.assets[b].path ==> a == b)
  }

  /** Whatever protocol state is reachable is consistent in this sense. */
  lemma ReachableIsConsistent(assets: Assets, jobs: Jobs, history: Histories, blobs: set<string>)
    requires AssetsOk(assets, jobs, history)
    ensures Consistent(Stored(jobs, assets, blobs))
  {
    forall a, b | a in assets && b in assets && assets[a].path == assets[b].path ensures a == b {
      assert assets[a].jobId == assets[b].jobId;
    }
  }

  /**
   * A sweep leaves exactly the jobs inside the window, with all their assets and all the blobs those
   * assets had, and removes every blob of every asset it removes.
   */
  lemma SweepLeavesExactlyTheLive(s: Stored, now: int, retentionDays: nat)
    requires Consistent(s)
    ensures var t := Swept(s, now, Window(retentionDays));
      var window := (if retentionDays <= 2_147_483_647 then retentionDays else 2_147_483_647) * 86_400_000_000;
      && Consistent(t)
      && (forall id :: id in t.jobs <==> id in s.jobs && now <= s.jobs[id].createdAt + window)
      && (forall id :: id in t.jobs ==> t.jobs[id] == s.jobs[id])
      && (forall a :: a in t.assets <==> a in s.assets && s.assets[a].jobId in t.jobs)
      && (forall a :: a in t.assets ==> t.assets[a] == s.assets[a] && (s.assets[a].path in s.blobs <==> s.assets[a].path in t.blobs))
      && (forall a :: a in s.assets && a !in t.assets ==> s.assets[a].path !in t.blobs)
      && (forall p :: p in s.blobs && (forall a :: a in s.assets ==> s.assets[a].path != p) ==> p in t.blobs)
  {
  }

  /** A second sweep at the same time finds nothing: its report is all zeros. */
  method SweepTwice(db: Database, store: Container, retentionDays: nat, now: int) returns (second: SweepReport)
    requires db.Valid(now)
    modifies db, store
    ensures second == SweepReport(0, 0, 0) && !TouchedAnything(second)
    ensures Stored(db.jobs, db.assets, store.blobs)
      == Swept(Stored(old(db.jobs), old(db.assets), old(store.blobs)), now, Window(retentionDays))
  {
    ghost var first := Stored(db.jobs, db.assets, store.blobs);
    var _, paths := Sweep(db, store, retentionDays, now, now, _ => false);
    ghost var swept := Stored(db.jobs, db.assets, store.blobs);
    SweptExactly(first, swept, now, Window(retentionDays));
    var report, none := Sweep(db, store, retentionDays, now, now, _ => false);
    assert none == [];
    assert db.jobs == swept.jobs && db.assets == swept.assets && store.blobs == swept.blobs;
    second := report;
  }
}
