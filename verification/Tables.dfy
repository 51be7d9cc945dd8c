/**
 * The `jobs` and `assets` tables: each SQL statement as a function on the rows,
 * and a database object whose methods apply them in place.
 */
module Tables {
  import opened Basics
  import opened JobStatuses

  datatype Row = Row(
    user: nat,
    media: MediaType,
    hidden: bool,
    status: StatusName,
    errorCode: Option<string>,
    errorMessage: Option<Message>,
    createdAt: int,
    startedAt: Option<int>,
    completedAt: Option<int>)

  datatype Asset = Asset(jobId: string, path: string)

  type Jobs = map<string, Row>
  type Assets = map<nat, Asset>

  function StatusOf(row: Row): JobStatus {
    FromColumns(StatusText(row.status), row.errorCode, row.errorMessage)
  }

  predicate Active(row: Row) { row.status.QueuedName? || row.status.RunningName? }

  function NewRow(user: nat, media: MediaType, now: int): Row {
    Row(user, media, false, QueuedName, None, None, now, None, None)
  }

  function StartedRow(row: Row, now: int): Row {
    row.(status := RunningName, startedAt := Some(now))
  }

  function FinishedRow(row: Row, status: JobStatus, now: int): Row {
    row.(status := NameOf(status), errorCode := CodeColumn(status), errorMessage := MessageColumn(status),
         completedAt := Some(now))
  }

  /** `where id = $1 and status = 'queued'`. */
  predicate Claimable(jobs: Jobs, id: string) { id in jobs && jobs[id].status.QueuedName? }

  /** `where id = $1 and status in ('queued', 'running')`. */
  predicate Finishable(jobs: Jobs, id: string) { id in jobs && Active(jobs[id]) }

  function MarkRunning(jobs: Jobs, id: string, now: int): Jobs {
    if Claimable(jobs, id) then jobs[id := StartedRow(jobs[id], now)] else jobs
  }

  function Finish(jobs: Jobs, id: string, status: JobStatus, now: int): Jobs {
    if Finishable(jobs, id) then jobs[id := FinishedRow(jobs[id], status, now)] else jobs
  }

  const INTERRUPTED := Failed(Internal, ErrJobInterrupted)

  function FailOrphans(jobs: Jobs, status: JobStatus, now: int): Jobs {
    map id | id in jobs :: if Active(jobs[id]) then FinishedRow(jobs[id], status, now) else jobs[id]
  }

  /** A row without an outcome has become an interrupted one, finished now; a finished one is as it was. */
  predicate LeftoverFailed(before: Row, after: Row, now: int) {
    if before.completedAt.None? then
      && StatusOf(after) == Failed(Internal, ErrJobInterrupted)
      && after == before.(status := FailedName, errorCode := Some("internal"), errorMessage := Some(ErrJobInterrupted),
                          completedAt := Some(now))
    else after == before
  }

  predicate OwnedBy(jobs: Jobs, id: string, user: nat) { id in jobs && jobs[id].user == user }

  function DeleteOwned(jobs: Jobs, id: string, user: nat): Jobs {
    if OwnedBy(jobs, id, user) then jobs - {id} else jobs
  }

  function WithHidden(jobs: Jobs, id: string, user: nat, hidden: bool): Jobs {
    if OwnedBy(jobs, id, user) then jobs[id := jobs[id].(hidden := hidden)] else jobs
  }

  predicate Expired(row: Row, now: int, retention: nat) { row.createdAt < now - retention }

  function DeleteExpired(jobs: Jobs, now: int, retention: nat): Jobs {
    map id | id in jobs && !Expired(jobs[id], now, retention) :: jobs[id]
  }

  /** `on delete cascade`: an asset row lives only as long as its job row. */
  function Cascade(assets: Assets, jobs: Jobs): Assets {
    map a | a in assets && assets[a].jobId in jobs :: assets[a]
  }

  function PathsOfJob(assets: Assets, jobs: Jobs, id: string, user: nat): set<string> {
    set a | a in assets && assets[a].jobId == id && OwnedBy(jobs, id, user) :: assets[a].path
  }

  function ExpiredPaths(assets: Assets, jobs: Jobs, now: int, retention: nat): set<string> {
    set a | a in assets && assets[a].jobId in jobs && Expired(jobs[assets[a].jobId], now, retention) :: assets[a].path
  }

  /**
   * What every writer keeps of a row: the check constraints, and a timeline in order.
   */
  predicate RowOk(row: Row, now: int) {
    && (row.status.FailedName? <==> row.errorCode.Some?)
    && (row.errorMessage.Some? <==> row.errorCode.Some?)
    && (Terminal(row.status) <==> row.completedAt.Some?)
    && (row.status.QueuedName? ==> row.startedAt.None?)
    && (row.status.RunningName? ==> row.startedAt.Some?)
    && row.createdAt <= now
    && (row.startedAt.Some? ==> row.createdAt <= row.startedAt.value <= now)
    && (row.completedAt.Some? ==> row.createdAt <= row.completedAt.value <= now)
    && (row.startedAt.Some? && row.completedAt.Some? ==> row.startedAt.value <= row.completedAt.value)
  }

  /** The same ids, and every row but perhaps the one of `id` as it was. */
  ghost predicate OthersKept(before: Jobs, after: Jobs, id: string) {
    after.Keys == before.Keys && forall other :: other in before && other != id ==> after[other] == before[other]
  }

  /** Exactly the assets whose job is still there, as they were. */
  ghost predicate AssetsFollow(before: Assets, after: Assets, jobs: Jobs) {
    && (forall a :: a in after <==> a in before && before[a].jobId in jobs)
    && (forall a :: a in after ==> after[a] == before[a])
  }

  ghost predicate LeftoversFailed(before: Jobs, after: Jobs, now: int) {
    after.Keys == before.Keys && forall id :: id in before ==> LeftoverFailed(before[id], after[id], now) && RowOk(after[id], now)
  }

  lemma LeftoverFails(row: Row, now: int)
    requires RowOk(row, now)
    ensures var after := if Active(row) then FinishedRow(row, INTERRUPTED, now) else row;
      LeftoverFailed(row, after, now) && RowOk(after, now)
  {
    StatusReadsBack(INTERRUPTED);
  }

  lemma LeftoversFail(jobs: Jobs, now: int)
    requires forall id :: id in jobs ==> RowOk(jobs[id], now)
    ensures LeftoversFailed(jobs, FailOrphans(jobs, INTERRUPTED, now), now)
  {
    var after := FailOrphans(jobs, INTERRUPTED, now);
    forall id | id in jobs ensures LeftoverFailed(jobs[id], after[id], now) && RowOk(after[id], now) {
      LeftoverFails(jobs[id], now);
    }
  }

  /** The database as the application holds it: two tables, each statement atomic. */
  class Database {
    var jobs: Jobs
    var assets: Assets

    ghost predicate Valid(now: int)
      reads this
    {
      && (forall id :: id in jobs ==> RowOk(jobs[id], now))
      && (forall a :: a in assets ==> assets[a].jobId in jobs)
    }

    constructor ()
      ensures jobs == map[] && assets == map[]
    {
      jobs, assets := map[], map[];
    }

    /** `gen_random_uuid()` supplies `id`, which no row uses. */
    method CreateJob(id: string, user: nat, media: MediaType, now: int)
      requires Valid(now) && id !in jobs
      modifies this
      ensures Valid(now)
      ensures jobs == old(jobs)[id := NewRow(user, media, now)] && assets == old(assets)
      ensures var row := jobs[id];
        && row.user == user && row.media == media && !row.hidden && row.createdAt == now
        && StatusOf(row) == Queued && row.startedAt.None? && row.completedAt.None?
    {
      jobs := jobs[id := NewRow(user, media, now)];
      StatusReadsBack(Queued);
    }

    method ClaimJob(id: string, now: int) returns (claimed: Option<Row>)
      requires Valid(now)
      modifies this`jobs
      ensures Valid(now)
      ensures jobs == MarkRunning(old(jobs), id, now)
      ensures claimed.Some? <==> id in old(jobs) && StatusOf(old(jobs)[id]) == Queued
      ensures OthersKept(old(jobs), jobs, id) && (claimed.None? ==> jobs == old(jobs))
      ensures claimed.Some? ==>
        && claimed.value == jobs[id] && StatusOf(claimed.value) == Running
        && claimed.value == old(jobs)[id].(status := RunningName, startedAt := Some(now))
      ensures !Claimable(jobs, id)
    {
      if id in jobs {
        NameReadsBack(jobs[id].status, jobs[id].errorCode, jobs[id].errorMessage);
      }
      if id in jobs && jobs[id].status.QueuedName? {
        var row := jobs[id].(status := RunningName, startedAt := Some(now));
        jobs := jobs[id := row];
        claimed := Some(row);
        StatusReadsBack(Running);
      } else {
        claimed := None;
      }
    }

    method FinishJob(id: string, status: JobStatus, now: int) returns (finished: Option<Row>)
      requires Valid(now) && Terminal(NameOf(status))
      modifies this`jobs
      ensures Valid(now)
      ensures jobs == Finish(old(jobs), id, status, now)
      ensures finished.Some? <==> id in old(jobs) && StatusOf(old(jobs)[id]) in {Queued, Running}
      ensures OthersKept(old(jobs), jobs, id) && (finished.None? ==> jobs == old(jobs))
      ensures finished.Some? ==>
        var row := old(jobs)[id];
        && finished.value == jobs[id] && StatusOf(finished.value) == status && finished.value.completedAt == Some(now)
        && finished.value == row.(status := finished.value.status, errorCode := finished.value.errorCode,
                                  errorMessage := finished.value.errorMessage, completedAt := finished.value.completedAt)
      ensures !Finishable(jobs, id)
    {
      if id in jobs {
        NameReadsBack(jobs[id].status, jobs[id].errorCode, jobs[id].errorMessage);
      }
      if id in jobs && (jobs[id].status.QueuedName? || jobs[id].status.RunningName?) {
        var row := FinishedRow(jobs[id], status, now);
        jobs := jobs[id := row];
        finished := Some(row);
        StatusReadsBack(status);
      } else {
        finished := None;
      }
    }

    /** Fails everything a previous process left unfinished; returns how many rows changed. */
    method FailOrphanedJobs(now: int) returns (count: nat)
      requires Valid(now)
      modifies this`jobs
      ensures Valid(now)
      ensures jobs == FailOrphans(old(jobs), INTERRUPTED, now)
      ensures LeftoversFailed(old(jobs), jobs, now)
      ensures count == |set id | id in old(jobs) && old(jobs)[id].completedAt.None?|
    {
      LeftoversFail(jobs, now);
      var active := set id | id in jobs && Active(jobs[id]);
      assert active == set id | id in jobs && jobs[id].completedAt.None?;
      count := |active|;
      var after := map id | id in jobs :: if id in active then FinishedRow(jobs[id], INTERRUPTED, now) else jobs[id];
      assert after == FailOrphans(jobs, INTERRUPTED, now);
      jobs := after;
    }

    /** Inserts an asset row under primary key `key`; the foreign key refuses it when the job is gone. */
    method CreateAsset(key: nat, asset: Asset, ghost now: int) returns (stored: bool)
      requires Valid(now) && key !in assets
      modifies this`assets
      ensures Valid(now)
      ensures stored <==> asset.jobId in jobs
      ensures assets == if stored then old(assets)[key := asset] else old(assets)
    {
      stored := asset.jobId in jobs;
      if stored {
        assets := assets[key := asset];
      }
    }

    /** Hiding is only ever something users do to their own work. */
    method SetHidden(id: string, user: nat, hidden: bool, ghost now: int) returns (found: bool)
      requires Valid(now)
      modifies this`jobs
      ensures Valid(now)
      ensures found <==> id in old(jobs) && old(jobs)[id].user == user
      ensures jobs == WithHidden(old(jobs), id, user, hidden)
      ensures OthersKept(old(jobs), jobs, id)
      ensures id in jobs ==> jobs[id] == if found then old(jobs)[id].(hidden := hidden) else old(jobs)[id]
    {
      found := id in jobs && jobs[id].user == user;
      if found {
        jobs := jobs[id := jobs[id].(hidden := hidden)];
      }
    }

    method DeleteForUser(id: string, user: nat, ghost now: int) returns (paths: Option<set<string>>)
      requires Valid(now)
      modifies this
      ensures Valid(now)
      ensures paths.Some? <==> id in old(jobs) && old(jobs)[id].user == user
      ensures paths.Some? ==>
        forall p :: p in paths.value <==> exists a :: a in old(assets) && old(assets)[a].jobId == id && old(assets)[a].path == p
      ensures jobs == if paths.Some? then old(jobs) - {id} else old(jobs)
      ensures AssetsFollow(old(assets), assets, jobs)
      ensures paths == if OwnedBy(old(jobs), id, user) then Some(PathsOfJob(old(assets), old(jobs), id, user)) else None
      ensures jobs == DeleteOwned(old(jobs), id, user) && assets == Cascade(old(assets), jobs)
    {
      var found := set a | a in assets && assets[a].jobId == id && id in jobs && jobs[id].user == user :: assets[a].path;
      if id in jobs && jobs[id].user == user {
        assert found == PathsOfJob(assets, jobs, id, user);
        jobs := jobs - {id};
        assets := map a | a in assets && assets[a].jobId in jobs :: assets[a];
        paths := Some(found);
      } else {
        paths := None;
      }
    }

    method DeleteOlderThan(now: int, retention: nat) returns (count: nat)
      requires Valid(now)
      modifies this
      ensures Valid(now)
      ensures jobs == DeleteExpired(old(jobs), now, retention) && assets == Cascade(old(assets), jobs)
      ensures forall id :: id in jobs <==> id in old(jobs) && now <= old(jobs)[id].createdAt + retention
      ensures forall id :: id in jobs ==> jobs[id] == old(jobs)[id]
      ensures AssetsFollow(old(assets), assets, jobs)
      ensures count == |set id | id in old(jobs) && old(jobs)[id].createdAt + retention < now|
      ensures count == 0 ==> jobs == old(jobs) && assets == old(assets)
    {
      var gone := set id | id in jobs && Expired(jobs[id], now, retention);
      assert gone == set id | id in jobs && jobs[id].createdAt + retention < now;
      count := |gone|;
      jobs := jobs - gone;
      assert jobs == DeleteExpired(old(jobs), now, retention);
      assets := map a | a in assets && assets[a].jobId in jobs :: assets[a];
    }
  }
}
