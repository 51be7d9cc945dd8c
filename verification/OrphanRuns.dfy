/** Runs in which a sweep or a deletion leaves nothing of a job, and runs in which it leaves a blob that no row names. */
module OrphanRuns {
  import opened Basics
  import opened JobStatuses
  import opened Tables
  import opened BlobPaths
  import opened Protocol
  import opened ProtocolSafety
  import opened JobGuarantees
  import opened SampleRuns
  import opened SweepAccounting

  function SomePath(id: string): string { BlobPath(2026, 1, Image, id, "png") }

  function StoredJob(id: string): Jobs { map[id := FinishedRow(StartedRow(NewRow(0, Image, 0), 0), Succeeded, 0)] }

  /** A job being worked on by the first worker, with what is stored of it. */
  function AtWork(id: string, worker: Worker, assets: Assets, blobs: set<string>): State {
    Scene(RunningJob(id), Past(id, [QueuedName, RunningName]), [], map[], CREW[0 := worker], [Published(id, Running)])
      .(assets := assets, blobs := blobs)
  }

  lemma UploadingRun(id: string) returns (steps: seq<Step>)
    requires IsUuid(id)
    ensures ValidRun(EmptyState(), steps)
    ensures After(EmptyState(), steps) == AtWork(id, Uploaded(id, SomePath(id)), map[], {SomePath(id)})
  {
    steps := GeneratingRun(id);
    var path := SomePath(id);
    var made := Generated(2026, 1, Image, "png");
    assert AtWork(id, Generating(id), map[], {}) == GeneratingState(id);
    assert CREW[0 := Generating(id)][0 := Uploading(id, path)] == CREW[0 := Uploading(id, path)];
    OneMoreStep(EmptyState(), steps, OfWorker(0, made));
    steps := steps + [OfWorker(0, made)];
    assert After(EmptyState(), steps) == AtWork(id, Uploading(id, path), map[], {});
    assert CREW[0 := Uploading(id, path)][0 := Uploaded(id, path)] == CREW[0 := Uploaded(id, path)];
    OneMoreStep(EmptyState(), steps, OfWorker(0, Upload));
    steps := steps + [OfWorker(0, Upload)];
    assert {} + {path} == {path};
  }

  function StoredAsset(id: string): Assets { map[0 := Asset(id, SomePath(id))] }

  /** One job finished, its asset stored, its outcome still to be broadcast; all at time zero. */
  function StoredState(id: string): State {
    Scene(StoredJob(id), Past(id, [QueuedName, RunningName, SucceededName]), [], map[],
          CREW[0 := Reporting(id, Succeeded)], [Published(id, Running)])
      .(assets := StoredAsset(id), blobs := {SomePath(id)})
  }

  lemma StoringRun(id: string) returns (steps: seq<Step>)
    requires IsUuid(id)
    ensures Initial(EmptyState()) && ValidRun(EmptyState(), steps) && After(EmptyState(), steps) == StoredState(id)
  {
    steps := UploadingRun(id);
    var path := SomePath(id);
    OneMoreStep(EmptyState(), steps, OfWorker(0, InsertAsset(0)));
    steps := steps + [OfWorker(0, InsertAsset(0))];
    assert CREW[0 := Uploaded(id, path)][0 := Finishing(id, Succeeded)] == CREW[0 := Finishing(id, Succeeded)];
    assert map[][0 := Asset(id, path)] == StoredAsset(id);
    var t := AtWork(id, Finishing(id, Succeeded), StoredAsset(id), {path});
    assert After(EmptyState(), steps) == t;
    OneMoreStep(EmptyState(), steps, OfWorker(0, FinishOutcome));
    steps := steps + [OfWorker(0, FinishOutcome)];
    SuccessIsWritten(id, t);
  }

  lemma SuccessIsWritten(id: string, s: State)
    requires s == AtWork(id, Finishing(id, Succeeded), StoredAsset(id), {SomePath(id)})
    ensures WorkerEnabled(s, 0, FinishOutcome) && WorkerNext(s, 0, FinishOutcome) == StoredState(id)
  {
    assert [QueuedName, RunningName] + [SucceededName] == [QueuedName, RunningName, SucceededName];
    assert Finish(RunningJob(id), id, Succeeded, 0) == StoredJob(id);
    assert Log(Past(id, [QueuedName, RunningName]), id, SucceededName) == Past(id, [QueuedName, RunningName, SucceededName]);
    assert CREW[0 := Finishing(id, Succeeded)][0 := Reporting(id, Succeeded)] == CREW[0 := Reporting(id, Succeeded)];
  }

  lemma ExpiresLater(id: string)
    ensures ExpiredPaths(StoredAsset(id), StoredJob(id), 0, RETENTION) == {}
    ensures ExpiredPaths(StoredAsset(id), StoredJob(id), 2, RETENTION) == {SomePath(id)}
    ensures DeleteExpired(StoredJob(id), 2, RETENTION) == map[]
  {
    assert StoredAsset(id)[0].path == SomePath(id);
  }

  lemma ReadsTooEarly(id: string)
    ensures SweeperNext(StoredState(id), ReadExpired) == StoredState(id).(sweeper := Sweeping({}, {}, {}, {}, {}))
  {
    ExpiresLater(id);
    var nothing: set<string> := {};
    assert nothing * {SomePath(id)} == {};
  }

  /** Two units of time later the path is read, and its blob is there. */
  lemma ReadsInTime(id: string)
    ensures SweeperNext(StoredState(id).(now := 2), ReadExpired)
      == StoredState(id).(now := 2, sweeper := Sweeping({SomePath(id)}, {SomePath(id)}, {}, {SomePath(id)}, {}))
  {
    ExpiresLater(id);
    assert {SomePath(id)} * {SomePath(id)} == {SomePath(id)};
  }

  lemma DeleteIsRefused(id: string)
    ensures var path := SomePath(id);
      var s := StoredState(id).(now := 2, sweeper := Sweeping({path}, {path}, {}, {path}, {}));
      SweeperEnabled(s, SweepBlob(path, false, false))
      && SweeperNext(s, SweepBlob(path, false, false)) == s.(sweeper := Sweeping({path}, {}, {path}, {path}, {path}))
  {
    var path := SomePath(id);
    var nothing: set<string> := {};
    assert {path} - {path} == {} && nothing + {path} == {path};
  }

  /** The rows go; the blob stays without a name. */
  lemma RowsGo(id: string, sweeper: Sweeper)
    requires sweeper.Sweeping?
    ensures var t := DeleteRowsExpired(StoredState(id).(now := 2, sweeper := sweeper));
      t.sweeper == Resting && t.jobs == map[] && Orphan(t, SomePath(id))
  {
    ExpiresLater(id);
  }

  /** The job expires between the two queries: no delete fails, and its blob is left behind. */
  lemma LateExpiryLeavesABlob(id: string) returns (steps: seq<Step>)
    requires IsUuid(id)
    ensures Initial(EmptyState()) && ValidRun(EmptyState(), steps)
    ensures var s := After(EmptyState(), steps); s.sweeper == Resting && s.jobs == map[] && Orphan(s, SomePath(id))
  {
    steps := StoringRun(id);
    var e := EmptyState();
    ReadsTooEarly(id);
    OneMoreStep(e, steps, OfSweeper(ReadExpired));
    steps := steps + [OfSweeper(ReadExpired)];
    OneMoreStep(e, steps, Tick(2));
    steps := steps + [Tick(2)];
    assert After(e, steps) == StoredState(id).(now := 2, sweeper := Sweeping({}, {}, {}, {}, {}));
    OneMoreStep(e, steps, OfSweeper(DeleteExpiredRows));
    steps := steps + [OfSweeper(DeleteExpiredRows)];
    RowsGo(id, Sweeping({}, {}, {}, {}, {}));
  }

  /** The job had expired and its path was read, but the container refused the delete. */
  lemma RefusedDeleteLeavesABlob(id: string) returns (steps: seq<Step>)
    requires IsUuid(id)
    ensures Initial(EmptyState()) && ValidRun(EmptyState(), steps)
    ensures var s := After(EmptyState(), steps); s.sweeper == Resting && s.jobs == map[] && Orphan(s, SomePath(id))
  {
    steps := StoringRun(id);
    var path := SomePath(id);
    var e := EmptyState();
    OneMoreStep(e, steps, Tick(2));
    steps := steps + [Tick(2)];
    assert After(e, steps) == StoredState(id).(now := 2);
    ReadsInTime(id);
    OneMoreStep(e, steps, OfSweeper(ReadExpired));
    steps := steps + [OfSweeper(ReadExpired)];
    DeleteIsRefused(id);
    OneMoreStep(e, steps, OfSweeper(SweepBlob(path, false, false)));
    steps := steps + [OfSweeper(SweepBlob(path, false, false))];
    OneMoreStep(e, steps, OfSweeper(DeleteExpiredRows));
    steps := steps + [OfSweeper(DeleteExpiredRows)];
    RowsGo(id, Sweeping({path}, {}, {path}, {path}, {path}));
  }

  /** What a deletion of the uploaded but not yet recorded job leaves. */
  lemma DeletionGoes(id: string)
    ensures var s := AtWork(id, Uploaded(id, SomePath(id)), map[], {SomePath(id)});
      var read := DeleterNext(s, 0, ReadForDelete(id, 0));
      && DeleterEnabled(s, 0, ReadForDelete(id, 0)) && DeleterEnabled(read, 0, DeleteRows)
      && var t := DeleterNext(read, 0, DeleteRows);
         t.jobs == map[] && t.deleters == map[0 := Removing(id, {})] && Orphan(t, SomePath(id))
  {
    var nothing: set<string> := {};
    assert PathsOfJob(map[], RunningJob(id), id, 0) == nothing;
    assert RunningJob(id) - {id} == map[];
  }

  /** The owner deletes a job between the upload and the insert: no path is read, and the blob is left behind. */
  lemma EarlyDeletionLeavesABlob(id: string) returns (steps: seq<Step>)
    requires IsUuid(id)
    ensures Initial(EmptyState()) && ValidRun(EmptyState(), steps)
    ensures var s := After(EmptyState(), steps);
      s.jobs == map[] && s.deleters == map[0 := Removing(id, {})] && Orphan(s, SomePath(id))
  {
    steps := UploadingRun(id);
    DeletionGoes(id);
    OneMoreStep(EmptyState(), steps, OfDeleter(0, ReadForDelete(id, 0)));
    steps := steps + [OfDeleter(0, ReadForDelete(id, 0))];
    OneMoreStep(EmptyState(), steps, OfDeleter(0, DeleteRows));
    steps := steps + [OfDeleter(0, DeleteRows)];
  }

  /** The steps of the same deletion once the asset row is there. */
  lemma DeletionFinds(id: string)
    ensures var path := SomePath(id); var s := StoredState(id);
      var read := DeleterNext(s, 0, ReadForDelete(id, 0));
      && DeleterEnabled(s, 0, ReadForDelete(id, 0)) && DeleterEnabled(read, 0, DeleteRows)
      && var gone := DeleterNext(read, 0, DeleteRows);
         && DeleterEnabled(gone, 0, DeleteBlob(path, true, true))
         && var t := DeleterNext(gone, 0, DeleteBlob(path, true, true));
            t.jobs == map[] && t.assets == map[] && t.blobs == {} && t.deleters == map[0 := Removing(id, {})]
  {
    var path := SomePath(id);
    assert StoredAsset(id)[0].path == path;
    assert PathsOfJob(StoredAsset(id), StoredJob(id), id, 0) == {path};
    assert StoredJob(id) - {id} == map[];
    assert {path} - {path} == {};
  }

  /** The owner deletes a finished job: nothing is left of it. */
  lemma DeletionLeavesNothing(id: string) returns (steps: seq<Step>)
    requires IsUuid(id)
    ensures Initial(EmptyState()) && ValidRun(EmptyState(), steps)
    ensures var s := After(EmptyState(), steps);
      s.jobs == map[] && s.assets == map[] && s.blobs == {} && s.deleters == map[0 := Removing(id, {})]
  {
    steps := StoringRun(id);
    DeletionFinds(id);
    OneMoreStep(EmptyState(), steps, OfDeleter(0, ReadForDelete(id, 0)));
    steps := steps + [OfDeleter(0, ReadForDelete(id, 0))];
    OneMoreStep(EmptyState(), steps, OfDeleter(0, DeleteRows));
    steps := steps + [OfDeleter(0, DeleteRows)];
    OneMoreStep(EmptyState(), steps, OfDeleter(0, DeleteBlob(SomePath(id), true, true)));
    steps := steps + [OfDeleter(0, DeleteBlob(SomePath(id), true, true))];
  }

  lemma DeleteIsAccepted(id: string)
    ensures var path := SomePath(id);
      var s := StoredState(id).(now := 2, sweeper := Sweeping({path}, {path}, {}, {path}, {}));
      SweeperEnabled(s, SweepBlob(path, true, true))
      && SweeperNext(s, SweepBlob(path, true, true)) == s.(blobs := {}, sweeper := Sweeping({path}, {}, {}, {path}, {}))
  {
    assert {SomePath(id)} - {SomePath(id)} == {};
  }

  lemma LastRowsGo(id: string, sweeper: Sweeper)
    requires sweeper.Sweeping?
    ensures var t := DeleteRowsExpired(StoredState(id).(now := 2, blobs := {}, sweeper := sweeper));
      t.sweeper == Resting && t.jobs == map[] && t.assets == map[] && t.blobs == {}
  {
    ExpiresLater(id);
  }

  /** A sweep of an expired job whose delete is accepted: nothing is left of it. */
  lemma SweepLeavesNothing(id: string) returns (steps: seq<Step>)
    requires IsUuid(id)
    ensures Initial(EmptyState()) && ValidRun(EmptyState(), steps)
    ensures var s := After(EmptyState(), steps); s.sweeper == Resting && s.jobs == map[] && s.assets == map[] && s.blobs == {}
  {
    steps := StoringRun(id);
    var path := SomePath(id);
    var e := EmptyState();
    OneMoreStep(e, steps, Tick(2));
    steps := steps + [Tick(2)];
    assert After(e, steps) == StoredState(id).(now := 2);
    ReadsInTime(id);
    OneMoreStep(e, steps, OfSweeper(ReadExpired));
    steps := steps + [OfSweeper(ReadExpired)];
    DeleteIsAccepted(id);
    OneMoreStep(e, steps, OfSweeper(SweepBlob(path, true, true)));
    steps := steps + [OfSweeper(SweepBlob(path, true, true))];
    OneMoreStep(e, steps, OfSweeper(DeleteExpiredRows));
    steps := steps + [OfSweeper(DeleteExpiredRows)];
    LastRowsGo(id, Sweeping({path}, {}, {}, {path}, {}));
  }
}
