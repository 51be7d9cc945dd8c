/**
 * Assets and blobs under every interleaving: one asset per job, a succeeded job
 * has one, and a live asset keeps its blob until its job expires.
 */
module ProtocolMedia {
  import opened Basics
  import opened JobStatuses
  import opened Tables
  import opened BlobPaths
  import opened Protocol
  import opened ProtocolSafety

  predicate HasAsset(assets: Assets, id: string) {
    exists a :: a in assets && assets[a].jobId == id
  }

  ghost predicate KnownIds(history: Histories) { forall id :: id in history ==> IsUuid(id) }

  /** Each asset belongs to a live, once-claimed job, names it in its path, and is that job's only one. */
  ghost predicate AssetsOk(assets: Assets, jobs: Jobs, history: Histories) {
    && (forall a :: a in assets ==>
          && assets[a].jobId in jobs
          && WasClaimed(history, assets[a].jobId)
          && JobIdOf(assets[a].path) == assets[a].jobId)
    && (forall a, b :: a in assets && b in assets && assets[a].jobId == assets[b].jobId ==> a == b)
  }

  ghost predicate SucceededOk(jobs: Jobs, assets: Assets) {
    forall id :: id in jobs && jobs[id].status.SucceededName? ==> HasAsset(assets, id)
  }

  /** What a worker's position says about its job's media. */
  ghost predicate WorkerMediaOk(worker: Worker, assets: Assets, jobs: Jobs, blobs: set<string>) {
    match worker
    case Claimed(id) => !HasAsset(assets, id)
    case Generating(id) => !HasAsset(assets, id)
    case Uploading(id, path) => !HasAsset(assets, id) && JobIdOf(path) == id
    case Uploaded(id, path) => !HasAsset(assets, id) && JobIdOf(path) == id && (id in jobs ==> path in blobs)
    case Finishing(id, outcome) => outcome.Succeeded? && id in jobs ==> HasAsset(assets, id)
    case _ => true
  }

  ghost predicate WorkersMediaOk(workers: seq<Worker>, assets: Assets, jobs: Jobs, blobs: set<string>) {
    forall w: nat :: w < |workers| ==> WorkerMediaOk(workers[w], assets, jobs, blobs)
  }

  /** A deletion only ever removes blobs of a job whose row is gone for good. */
  ghost predicate DeletersOk(deleters: map<nat, Deleter>, jobs: Jobs, history: Histories) {
    forall d :: d in deleters ==>
      && (forall path :: path in deleters[d].paths ==> JobIdOf(path) == deleters[d].id)
      && (deleters[d].Removing? ==> deleters[d].id in history && deleters[d].id !in jobs)
  }

  /** The sweep only ever removes blobs of jobs that have expired or are gone. */
  ghost predicate SweeperOk(s: State) {
    s.sweeper.Sweeping? ==> forall path :: path in s.sweeper.remaining ==>
      var id := JobIdOf(path);
      && id in s.history
      && (id in s.jobs ==> s.retention > 0 && Expired(s.jobs[id], s.now, s.retention) && HasAsset(s.assets, id))
  }

  /** A missing blob means an expired job; with no retention configured, none is missing. */
  ghost predicate BlobsOk(s: State) {
    forall a :: a in s.assets && s.assets[a].path !in s.blobs ==>
      s.assets[a].jobId in s.jobs && s.retention > 0 && Expired(s.jobs[s.assets[a].jobId], s.now, s.retention)
  }

  ghost predicate MediaOk(s: State) {
    && KnownIds(s.history)
    && AssetsOk(s.assets, s.jobs, s.history)
    && SucceededOk(s.jobs, s.assets)
    && WorkersMediaOk(s.workers, s.assets, s.jobs, s.blobs)
    && DeletersOk(s.deleters, s.jobs, s.history)
    && SweeperOk(s)
    && BlobsOk(s)
  }

  // ---------------------------------------------------------------- steps that store nothing

  /** Assets, blobs and cleaners stay; rows may change status but none appears under an old id. */
  ghost predicate MediaUntouched(s: State, t: State) {
    && t.assets == s.assets && t.blobs == s.blobs && t.deleters == s.deleters && t.sweeper == s.sweeper
    && t.now == s.now && t.retention == s.retention
    && (forall id :: id in s.history ==> id in t.history && (WasClaimed(s.history, id) ==> WasClaimed(t.history, id)))
    && (forall id :: id in s.jobs ==> id in t.jobs && s.jobs[id].createdAt == t.jobs[id].createdAt)
    && (forall id :: id in t.jobs && id !in s.jobs ==> id !in s.history)
  }

  lemma UntouchedKeepsMedia(s: State, t: State)
    requires MediaOk(s) && MediaUntouched(s, t)
    requires KnownIds(t.history) && SucceededOk(t.jobs, t.assets) && WorkersMediaOk(t.workers, t.assets, t.jobs, t.blobs)
    ensures MediaOk(t)
  {
    assert AssetsOk(t.assets, t.jobs, t.history);
    assert DeletersOk(t.deleters, t.jobs, t.history);
    assert SweeperOk(t);
    assert BlobsOk(t);
  }

  lemma RunningLeavesMedia(s: State, id: string)
    requires id in s.history && s.history[id] != [] && KnownIds(s.history)
    ensures var t := WriteRunning(s, id); MediaUntouched(s, t) && KnownIds(t.history)
    ensures var t := WriteRunning(s, id); SucceededOk(s.jobs, s.assets) ==> SucceededOk(t.jobs, t.assets)
  {
  }

  lemma TerminalLeavesMedia(s: State, id: string, status: JobStatus)
    requires id in s.history && s.history[id] != [] && KnownIds(s.history)
    requires status.Succeeded? || status.Failed?
    ensures var t := WriteTerminal(s, id, status); MediaUntouched(s, t) && KnownIds(t.history)
  {
  }

  lemma TerminalKeepsSucceeded(s: State, id: string, status: JobStatus)
    requires SucceededOk(s.jobs, s.assets) && (status.Succeeded? && id in s.jobs ==> HasAsset(s.assets, id))
    ensures SucceededOk(WriteTerminal(s, id, status).jobs, s.assets)
  {
  }

  lemma CreateLeavesMedia(s: State, h: nat, e: HandlerStep)
    requires KnownIds(s.history) && HandlerEnabled(s, h, e) && e.Create? && (forall id :: id in s.jobs ==> id in s.history)
    ensures var t := HandlerNext(s, h, e); MediaUntouched(s, t) && KnownIds(t.history)
  {
  }

  lemma RefusalLeavesMedia(s: State, h: nat, e: HandlerStep)
    requires RowsOk(s.jobs, s.history, s.now) && CrewOk(s) && KnownIds(s.history)
    requires HandlerEnabled(s, h, e) && (e.FinishRefused? || e.FinishRefusedError?)
    ensures var t := HandlerNext(s, h, e); MediaUntouched(s, t) && KnownIds(t.history)
  {
    assert Legal(s.history[s.handlers[h].id]);
    TerminalLeavesMedia(s, s.handlers[h].id, QUEUE_FULL);
  }

  lemma HandlerLeavesMedia(s: State, h: nat, e: HandlerStep)
    requires RowsOk(s.jobs, s.history, s.now) && CrewOk(s) && KnownIds(s.history) && HandlerEnabled(s, h, e)
    ensures var t := HandlerNext(s, h, e); MediaUntouched(s, t) && KnownIds(t.history)
  {
    match e
    case Create(_, _, _) => CreateLeavesMedia(s, h, e);
    case FinishRefused => RefusalLeavesMedia(s, h, e);
    case FinishRefusedError(_) => RefusalLeavesMedia(s, h, e);
    case _ =>
  }

  lemma HandlerKeepsSucceeded(s: State, h: nat, e: HandlerStep)
    requires SucceededOk(s.jobs, s.assets) && HandlerEnabled(s, h, e)
    ensures SucceededOk(HandlerNext(s, h, e).jobs, s.assets)
  {
    if h in s.handlers {
      TerminalKeepsSucceeded(s, s.handlers[h].id, QUEUE_FULL);
    }
  }

  /** A new row has an id no worker holds. */
  lemma HandlerKeepsWorkersMedia(s: State, t: State, h: nat)
    requires CrewOk(s) && WorkersMediaOk(s.workers, s.assets, s.jobs, s.blobs) && MediaUntouched(s, t)
    requires t.workers == s.workers
    ensures WorkersMediaOk(t.workers, t.assets, t.jobs, t.blobs)
  {
    forall w: nat | w < |t.workers| ensures WorkerMediaOk(t.workers[w], t.assets, t.jobs, t.blobs) {
      assert WorkerMediaOk(s.workers[w], s.assets, s.jobs, s.blobs);
      assert !s.workers[w].Idle? ==> s.workers[w].id in s.history;
    }
  }

  lemma HandlerKeepsMedia(s: State, h: nat, e: HandlerStep)
    requires RowsOk(s.jobs, s.history, s.now) && CrewOk(s) && MediaOk(s) && HandlerEnabled(s, h, e)
    ensures MediaOk(HandlerNext(s, h, e))
  {
    var t := HandlerNext(s, h, e);
    HandlerLeavesMedia(s, h, e);
    HandlerKeepsSucceeded(s, h, e);
    HandlerKeepsWorkersMedia(s, t, h);
    UntouchedKeepsMedia(s, t);
  }

  /** All workers but `w` are as they were, and rows only changed status. */
  lemma OneWorkerMoved(s: State, t: State, w: nat)
    requires WorkersMediaOk(s.workers, s.assets, s.jobs, s.blobs)
    requires w < |s.workers| == |t.workers| && t.workers == s.workers[w := t.workers[w]]
    requires t.assets == s.assets && s.blobs <= t.blobs
    requires forall id :: id in t.jobs ==> id in s.jobs
    requires WorkerMediaOk(t.workers[w], t.assets, t.jobs, t.blobs)
    ensures WorkersMediaOk(t.workers, t.assets, t.jobs, t.blobs)
  {
    forall v: nat | v < |t.workers| ensures WorkerMediaOk(t.workers[v], t.assets, t.jobs, t.blobs) {
      assert WorkerMediaOk(s.workers[v], s.assets, s.jobs, s.blobs);
    }
  }

  lemma QuietKeepsMedia(s: State, w: nat, e: WorkerStep)
    requires MediaOk(s) && CrewOk(s) && WorkerEnabled(s, w, e) && !WritesStatus(e) && !Stores(e)
    ensures MediaOk(WorkerNext(s, w, e))
  {
    var t := WorkerNext(s, w, e);
    assert WorkerMediaOk(s.workers[w], s.assets, s.jobs, s.blobs);
    if e.Generated? {
      PathNamesItsJob(e.year, e.month, e.media, s.workers[w].id, e.extension);
    }
    OneWorkerMoved(s, t, w);
    UntouchedKeepsMedia(s, t);
  }

  /** A job that can still be claimed has no asset. */
  lemma ClaimableHasNoAsset(s: State, id: string)
    requires RowsOk(s.jobs, s.history, s.now) && AssetsOk(s.assets, s.jobs, s.history) && Claimable(s.jobs, id)
    ensures !HasAsset(s.assets, id)
  {
  }

  lemma ClaimMovesOneWorker(s: State, w: nat, x: Worker)
    requires RowsOk(s.jobs, s.history, s.now) && CrewOk(s) && MediaOk(s)
    requires w < |s.workers| && s.workers[w].Received?
    requires x.Idle? || (x == Claimed(s.workers[w].id) && Claimable(s.jobs, s.workers[w].id))
    ensures MediaOk(Move(WriteRunning(s, s.workers[w].id), w, x))
  {
    var id := s.workers[w].id;
    var t := Move(WriteRunning(s, id), w, x);
    assert id in s.history && Legal(s.history[id]);
    RunningLeavesMedia(s, id);
    if x.Claimed? {
      ClaimableHasNoAsset(s, id);
    }
    OneWorkerMoved(s, t, w);
    UntouchedKeepsMedia(s, t);
  }

  /** A worker lets go of its job and writes nothing. */
  lemma LettingGoKeepsMedia(s: State, w: nat, lost: set<string>)
    requires MediaOk(s) && w < |s.workers|
    ensures MediaOk(s.(workers := s.workers[w := Idle], lost := lost))
  {
    var t := s.(workers := s.workers[w := Idle], lost := lost);
    OneWorkerMoved(s, t, w);
    UntouchedKeepsMedia(s, t);
  }

  lemma LosingKeepsMedia(s: State, lost: set<string>)
    requires MediaOk(s)
    ensures MediaOk(s.(lost := lost))
  {
  }

  lemma ClaimKeepsMedia(s: State, w: nat)
    requires RowsOk(s.jobs, s.history, s.now) && CrewOk(s) && MediaOk(s) && WorkerEnabled(s, w, Claim)
    ensures MediaOk(WorkerNext(s, w, Claim))
  {
    var id := s.workers[w].id;
    ClaimMovesOneWorker(s, w, if Claimable(s.jobs, id) then Claimed(id) else Idle);
  }

  lemma ClaimErrorKeepsMedia(s: State, w: nat, applied: bool)
    requires RowsOk(s.jobs, s.history, s.now) && CrewOk(s) && MediaOk(s) && WorkerEnabled(s, w, ClaimError(applied))
    ensures MediaOk(WorkerNext(s, w, ClaimError(applied)))
  {
    var lost := s.lost + {s.workers[w].id};
    if applied {
      ClaimMovesOneWorker(s, w, Idle);
      LosingKeepsMedia(Move(WriteRunning(s, s.workers[w].id), w, Idle), lost);
    } else {
      LettingGoKeepsMedia(s, w, lost);
    }
  }

  lemma FinishKeepsMedia(s: State, w: nat, x: Worker)
    requires RowsOk(s.jobs, s.history, s.now) && CrewOk(s) && MediaOk(s)
    requires w < |s.workers| && s.workers[w].Finishing? && (x.Idle? || x.Reporting?)
    ensures MediaOk(Move(WriteTerminal(s, s.workers[w].id, s.workers[w].outcome), w, x))
  {
    var me := s.workers[w];
    var t := Move(WriteTerminal(s, me.id, me.outcome), w, x);
    assert Driving(me);
    assert WorkerMediaOk(me, s.assets, s.jobs, s.blobs);
    TerminalLeavesMedia(s, me.id, me.outcome);
    TerminalKeepsSucceeded(s, me.id, me.outcome);
    OneWorkerMoved(s, t, w);
    UntouchedKeepsMedia(s, t);
  }

  lemma FinishStepKeepsMedia(s: State, w: nat)
    requires RowsOk(s.jobs, s.history, s.now) && CrewOk(s) && MediaOk(s) && WorkerEnabled(s, w, FinishOutcome)
    ensures MediaOk(WorkerNext(s, w, FinishOutcome))
  {
    FinishKeepsMedia(s, w, WorkerNext(s, w, FinishOutcome).workers[w]);
  }

  lemma FinishErrorKeepsMedia(s: State, w: nat, applied: bool)
    requires RowsOk(s.jobs, s.history, s.now) && CrewOk(s) && MediaOk(s) && WorkerEnabled(s, w, FinishOutcomeError(applied))
    ensures MediaOk(WorkerNext(s, w, FinishOutcomeError(applied)))
  {
    var lost := s.lost + {s.workers[w].id};
    if applied {
      FinishKeepsMedia(s, w, Idle);
      LosingKeepsMedia(Move(WriteTerminal(s, s.workers[w].id, s.workers[w].outcome), w, Idle), lost);
    } else {
      LettingGoKeepsMedia(s, w, lost);
    }
  }

  lemma UploadKeepsMedia(s: State, w: nat, e: WorkerStep)
    requires MediaOk(s) && WorkerEnabled(s, w, e) && (e.Upload? || e.UploadError?)
    ensures MediaOk(WorkerNext(s, w, e))
  {
    var t := WorkerNext(s, w, e);
    assert WorkerMediaOk(s.workers[w], s.assets, s.jobs, s.blobs);
    OneWorkerMoved(s, t, w);
  }

  lemma NewAssetKeepsAssets(s: State, key: nat, me: Worker)
    requires me.Uploaded? && key !in s.assets && me.id in s.jobs && WasClaimed(s.history, me.id)
    requires AssetsOk(s.assets, s.jobs, s.history) && WorkerMediaOk(me, s.assets, s.jobs, s.blobs)
    ensures AssetsOk(WithAsset(s, key, me), s.jobs, s.history)
    ensures forall id :: HasAsset(s.assets, id) ==> HasAsset(WithAsset(s, key, me), id)
    ensures HasAsset(WithAsset(s, key, me), me.id)
    ensures forall id :: id != me.id && HasAsset(WithAsset(s, key, me), id) ==> HasAsset(s.assets, id)
  {
    var assets := WithAsset(s, key, me);
    assert assets[key].jobId == me.id;
    forall id | HasAsset(s.assets, id) ensures HasAsset(assets, id) {
      var a :| a in s.assets && s.assets[a].jobId == id;
      assert assets[a].jobId == id;
    }
    forall id | id != me.id && HasAsset(assets, id) ensures HasAsset(s.assets, id) {
      var a :| a in assets && assets[a].jobId == id;
      assert s.assets[a].jobId == id;
    }
  }

  lemma NewAssetKeepsWorkersMedia(s: State, w: nat, key: nat, x: Worker)
    requires CrewOk(s) && AssetsOk(s.assets, s.jobs, s.history)
    requires WorkersMediaOk(s.workers, s.assets, s.jobs, s.blobs)
    requires w < |s.workers| && s.workers[w].Uploaded? && key !in s.assets && x.Finishing? && x.id == s.workers[w].id
    requires s.workers[w].id in s.jobs && WasClaimed(s.history, s.workers[w].id)
    ensures WorkersMediaOk(s.workers[w := x], WithAsset(s, key, s.workers[w]), s.jobs, s.blobs)
  {
    var me := s.workers[w];
    NewAssetKeepsAssets(s, key, me);
    var workers := s.workers[w := x];
    forall v: nat | v < |workers| ensures WorkerMediaOk(workers[v], WithAsset(s, key, me), s.jobs, s.blobs) {
      assert WorkerMediaOk(s.workers[v], s.assets, s.jobs, s.blobs);
    }
  }

  lemma InsertKeepsMedia(s: State, w: nat, key: nat, x: Worker)
    requires CrewOk(s) && MediaOk(s) && w < |s.workers| && s.workers[w].Uploaded?
    requires key !in s.assets && s.workers[w].id in s.jobs && x.Finishing? && x.id == s.workers[w].id
    ensures MediaOk(Move(s.(assets := WithAsset(s, key, s.workers[w])), w, x))
  {
    var me := s.workers[w];
    assert Driving(me);
    assert WorkerMediaOk(me, s.assets, s.jobs, s.blobs);
    NewAssetKeepsAssets(s, key, me);
    NewAssetKeepsWorkersMedia(s, w, key, x);
  }

  lemma InsertStepKeepsMedia(s: State, w: nat, e: WorkerStep)
    requires CrewOk(s) && MediaOk(s) && WorkerEnabled(s, w, e)
    requires e.InsertAsset? || e.InsertAssetError?
    ensures MediaOk(WorkerNext(s, w, e))
  {
    var t := WorkerNext(s, w, e);
    if s.workers[w].id in s.jobs && (e.InsertAsset? || e.applied) {
      InsertKeepsMedia(s, w, e.key, t.workers[w]);
    } else {
      OneWorkerMoved(s, t, w);
      UntouchedKeepsMedia(s, t);
    }
  }

  lemma WorkerKeepsMedia(s: State, w: nat, e: WorkerStep)
    requires RowsOk(s.jobs, s.history, s.now) && CrewOk(s) && MediaOk(s) && WorkerEnabled(s, w, e)
    ensures MediaOk(WorkerNext(s, w, e))
  {
    match e
    case Claim => ClaimKeepsMedia(s, w);
    case ClaimError(applied) => ClaimErrorKeepsMedia(s, w, applied);
    case FinishOutcome => FinishStepKeepsMedia(s, w);
    case FinishOutcomeError(applied) => FinishErrorKeepsMedia(s, w, applied);
    case Upload => UploadKeepsMedia(s, w, e);
    case UploadError(_) => UploadKeepsMedia(s, w, e);
    case InsertAsset(_) => InsertStepKeepsMedia(s, w, e);
    case InsertAssetError(_, _) => InsertStepKeepsMedia(s, w, e);
    case _ => QuietKeepsMedia(s, w, e);
  }

  // ---------------------------------------------------------------- deletion, retention, restart

  /** Rows leave with their assets; nothing else moves. */
  lemma RemovingRowsKeepsMedia(s: State, jobs: Jobs)
    requires MediaOk(s) && jobs.Keys <= s.jobs.Keys && (forall id :: id in jobs ==> jobs[id] == s.jobs[id])
    ensures MediaOk(s.(jobs := jobs, assets := Cascade(s.assets, jobs)))
  {
    var t := s.(jobs := jobs, assets := Cascade(s.assets, jobs));
    forall id | id in jobs && HasAsset(s.assets, id) ensures HasAsset(t.assets, id) {
      var a :| a in s.assets && s.assets[a].jobId == id;
      assert t.assets[a].jobId == id;
    }
    forall v: nat | v < |t.workers| ensures WorkerMediaOk(t.workers[v], t.assets, t.jobs, t.blobs) {
      assert WorkerMediaOk(s.workers[v], s.assets, s.jobs, s.blobs);
    }
  }

  /** Removing a blob is harmless when its job is gone or expired and already has its asset. */
  lemma RemovingBlobKeepsMedia(s: State, path: string)
    requires MediaOk(s)
    requires var id := JobIdOf(path);
      id in s.jobs ==> s.retention > 0 && Expired(s.jobs[id], s.now, s.retention) && HasAsset(s.assets, id)
    ensures MediaOk(s.(blobs := s.blobs - {path}))
  {
    var t := s.(blobs := s.blobs - {path});
    forall v: nat | v < |t.workers| ensures WorkerMediaOk(t.workers[v], t.assets, t.jobs, t.blobs) {
      assert WorkerMediaOk(s.workers[v], s.assets, s.jobs, s.blobs);
    }
  }

  lemma ReadingKeepsMedia(s: State, d: nat, id: string, user: nat)
    requires MediaOk(s) && DeleterEnabled(s, d, ReadForDelete(id, user))
    ensures MediaOk(DeleterNext(s, d, ReadForDelete(id, user)))
  {
  }

  lemma DeletingRowsKeepsMedia(s: State, d: nat)
    requires MediaOk(s) && DeleterEnabled(s, d, DeleteRows) && (forall id :: id in s.jobs ==> id in s.history)
    ensures MediaOk(DeleterNext(s, d, DeleteRows))
  {
    var r := s.deleters[d];
    RemovingRowsKeepsMedia(s, DeleteOwned(s.jobs, r.id, r.user));
  }

  lemma DeletingBlobKeepsMedia(s: State, d: nat, path: string, ok: bool, landed: bool)
    requires MediaOk(s) && DeleterEnabled(s, d, DeleteBlob(path, ok, landed))
    ensures MediaOk(DeleterNext(s, d, DeleteBlob(path, ok, landed)))
  {
    if ok || landed { RemovingBlobKeepsMedia(s, path); }
  }

  lemma DeleterKeepsMedia(s: State, d: nat, e: DeleterStep)
    requires MediaOk(s) && DeleterEnabled(s, d, e) && (forall id :: id in s.jobs ==> id in s.history)
    ensures MediaOk(DeleterNext(s, d, e))
  {
    match e
    case ReadForDelete(id, user) => ReadingKeepsMedia(s, d, id, user);
    case DeleteRows => DeletingRowsKeepsMedia(s, d);
    case DeleteBlob(path, ok, landed) => DeletingBlobKeepsMedia(s, d, path, ok, landed);
    case EndDelete =>
  }

  lemma SweeperKeepsMedia(s: State, e: SweeperStep)
    requires MediaOk(s) && SweeperEnabled(s, e)
    ensures MediaOk(SweeperNext(s, e))
  {
    match e
    case ReadExpired =>
    case SweepBlob(path, ok, landed) =>
      if ok || landed { RemovingBlobKeepsMedia(s, path); }
    case DeleteExpiredRows => RemovingRowsKeepsMedia(s, DeleteExpired(s.jobs, s.now, s.retention));
    case AbandonSweep =>
  }

  lemma FailingOrphansLeavesMedia(s: State)
    requires KnownIds(s.history) && RowsOk(s.jobs, s.history, s.now)
    ensures MediaUntouched(s, Restarted(s)) && KnownIds(Restarted(s).history)
  {
    forall id | id in s.history && WasClaimed(s.history, id) ensures WasClaimed(FailHistory(s.jobs, s.history), id) {
    }
  }

  lemma FailingOrphansKeepsSucceeded(s: State)
    requires SucceededOk(s.jobs, s.assets)
    ensures SucceededOk(Restarted(s).jobs, s.assets)
  {
  }

  lemma RestartKeepsMedia(s: State)
    requires MediaOk(s) && RowsOk(s.jobs, s.history, s.now)
    ensures MediaOk(Restarted(s))
  {
    var t := Restarted(s);
    FailingOrphansLeavesMedia(s);
    FailingOrphansKeepsSucceeded(s);
    assert forall w: nat :: w < |t.workers| ==> t.workers[w].Idle?;
    UntouchedKeepsMedia(s, t);
  }

  lemma HidingKeepsMedia(s: State, id: string, user: nat, hidden: bool)
    requires MediaOk(s)
    ensures MediaOk(s.(jobs := WithHidden(s.jobs, id, user, hidden)))
  {
    var t := s.(jobs := WithHidden(s.jobs, id, user, hidden));
    forall v: nat | v < |t.workers| ensures WorkerMediaOk(t.workers[v], t.assets, t.jobs, t.blobs) {
      assert WorkerMediaOk(s.workers[v], s.assets, s.jobs, s.blobs);
    }
    UntouchedKeepsMedia(s, t);
  }

  lemma RedeliveryKeepsMedia(s: State, channel: seq<string>)
    requires MediaOk(s)
    ensures MediaOk(s.(channel := channel))
  {
  }

  /** Every step keeps the media in order, also when ids are delivered twice. */
  lemma MediaKept(s: State, e: Step)
    requires Sound(s) && MediaOk(s) && Enabled(s, e)
    ensures MediaOk(Next(s, e))
  {
    match e
    case Tick(_) =>
    case OfHandler(h, step) => HandlerKeepsMedia(s, h, step);
    case OfWorker(w, step) => WorkerKeepsMedia(s, w, step);
    case OfDeleter(d, step) => DeleterKeepsMedia(s, d, step);
    case OfSweeper(step) => SweeperKeepsMedia(s, step);
    case Hide(id, user, hidden) => HidingKeepsMedia(s, id, user, hidden);
    case Redeliver(id) => RedeliveryKeepsMedia(s, s.channel + [id]);
    case Crash =>
    case Restart => RestartKeepsMedia(s);
  }

  lemma {:induction false} MediaAlways(s: State, steps: seq<Step>)
    requires Sound(s) && MediaOk(s) && ValidRun(s, steps)
    ensures Sound(After(s, steps)) && MediaOk(After(s, steps))
    decreases steps
  {
    if steps != [] {
      SoundKept(s, steps[0]);
      MediaKept(s, steps[0]);
      MediaAlways(Next(s, steps[0]), steps[1..]);
    }
  }
}
