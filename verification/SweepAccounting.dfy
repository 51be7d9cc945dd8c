/**
 * What one retention sweep leaves behind while handlers, workers and deletions
 * keep running between its two queries.
 */
module SweepAccounting {
  import opened Basics
  import opened JobStatuses
  import opened Tables
  import opened BlobPaths
  import opened Protocol
  import opened ProtocolSafety
  import opened ProtocolMedia
  import opened JobGuarantees

  /** A worker that may still upload or record its job's media. */
  predicate Early(worker: Worker) {
    worker.Claimed? || worker.Generating? || worker.Uploading? || worker.Uploaded?
  }

  /** The jobs whose paths were read are past storing media, whoever holds them. */
  ghost predicate ReadJobsAreStored(read: set<string>, workers: seq<Worker>, history: Histories) {
    && (forall path :: path in read ==> WasClaimed(history, JobIdOf(path)))
    && (forall w: nat, path :: w < |workers| && Early(workers[w]) && path in read ==> workers[w].id != JobIdOf(path))
  }

  /** Of the paths read, what is left of their blobs: those there at the start and not yet, or not effectively, deleted. */
  ghost predicate LeftOver(sweeper: Sweeper, blobs: set<string>, assets: Assets)
    requires sweeper.Sweeping?
  {
    && (forall path :: path in sweeper.read && path in blobs ==>
          path in sweeper.present && (path in sweeper.remaining || path in sweeper.kept))
    && (forall a :: a in assets && assets[a].path in sweeper.present && assets[a].path in sweeper.remaining + sweeper.kept ==>
          assets[a].path in blobs)
  }

  ghost predicate Track(s: State) {
    s.sweeper.Sweeping? ==>
      var read := s.sweeper.read;
      && s.sweeper.remaining <= read && s.sweeper.present <= read
      && s.sweeper.kept <= s.sweeper.failed <= read && s.sweeper.kept !! s.sweeper.remaining
      && ReadJobsAreStored(read, s.workers, s.history)
      && LeftOver(s.sweeper, s.blobs, s.assets)
      && (forall a :: a in s.assets && s.assets[a].path !in s.blobs ==> s.assets[a].path in read)
  }

  lemma HandlerKeepsTrack(s: State, h: nat, e: HandlerStep)
    requires RowsOk(s.jobs, s.history, s.now) && CrewOk(s) && MediaOk(s) && Track(s) && HandlerEnabled(s, h, e)
    ensures Track(HandlerNext(s, h, e))
  {
    HandlerLeavesMedia(s, h, e);
  }

  /** Rows may change and worker `w` moves on, but what is stored stays, and claimed jobs stay claimed. */
  ghost predicate StoresNothing(s: State, t: State, w: nat) {
    && t.sweeper == s.sweeper && t.assets == s.assets && t.blobs == s.blobs
    && w < |s.workers| && |t.workers| == |s.workers|
    && (forall v: nat :: v < |s.workers| && v != w ==> t.workers[v] == s.workers[v])
    && (forall id :: WasClaimed(s.history, id) ==> WasClaimed(t.history, id))
  }

  /** A worker that moves on without storing is harmless when it takes up no claimed job. */
  lemma StoringNothingKeepsTrack(s: State, t: State, w: nat)
    requires Track(s) && StoresNothing(s, t, w)
    requires Early(t.workers[w]) ==> !WasClaimed(s.history, t.workers[w].id)
    ensures Track(t)
  {
  }

  lemma ClaimStoresNothing(s: State, w: nat)
    requires RowsOk(s.jobs, s.history, s.now) && CrewOk(s) && WorkerEnabled(s, w, Claim)
    ensures var t := WorkerNext(s, w, Claim);
      StoresNothing(s, t, w) && (Early(t.workers[w]) ==> !WasClaimed(s.history, t.workers[w].id))
  {
    WriteRunningGrows(s, s.workers[w].id);
  }

  lemma ClaimErrorStoresNothing(s: State, w: nat, applied: bool)
    requires RowsOk(s.jobs, s.history, s.now) && CrewOk(s) && WorkerEnabled(s, w, ClaimError(applied))
    ensures var t := WorkerNext(s, w, ClaimError(applied)); StoresNothing(s, t, w) && !Early(t.workers[w])
  {
    WriteRunningGrows(s, s.workers[w].id);
  }

  lemma FinishStoresNothing(s: State, w: nat, e: WorkerStep)
    requires CrewOk(s) && WorkerEnabled(s, w, e) && (e.FinishOutcome? || e.FinishOutcomeError?)
    ensures var t := WorkerNext(s, w, e); StoresNothing(s, t, w) && !Early(t.workers[w])
  {
    assert Driving(s.workers[w]);
    WriteTerminalGrows(s, s.workers[w].id, s.workers[w].outcome);
  }

  lemma WritingKeepsTrack(s: State, w: nat, e: WorkerStep)
    requires RowsOk(s.jobs, s.history, s.now) && CrewOk(s) && Track(s) && WorkerEnabled(s, w, e) && WritesStatus(e)
    ensures Track(WorkerNext(s, w, e))
  {
    match e {
      case Claim => ClaimStoresNothing(s, w);
      case ClaimError(applied) => ClaimErrorStoresNothing(s, w, applied);
      case _ => FinishStoresNothing(s, w, e);
    }
    StoringNothingKeepsTrack(s, WorkerNext(s, w, e), w);
  }

  lemma StoringKeepsTrack(s: State, w: nat, e: WorkerStep)
    requires WorkerEnabled(s, w, e) && Stores(e) && Track(s)
    requires WorkerMediaOk(s.workers[w], s.assets, s.jobs, s.blobs)
    ensures Track(WorkerNext(s, w, e))
  {
  }

  lemma OtherWorkKeepsTrack(s: State, w: nat, e: WorkerStep)
    requires Track(s) && WorkerEnabled(s, w, e) && !WritesStatus(e) && !Stores(e)
    ensures Track(WorkerNext(s, w, e))
  {
  }

  lemma WorkerKeepsTrack(s: State, w: nat, e: WorkerStep)
    requires RowsOk(s.jobs, s.history, s.now) && CrewOk(s) && MediaOk(s) && Track(s) && WorkerEnabled(s, w, e)
    ensures Track(WorkerNext(s, w, e))
  {
    assert WorkerMediaOk(s.workers[w], s.assets, s.jobs, s.blobs);
    if WritesStatus(e) {
      WritingKeepsTrack(s, w, e);
    } else if Stores(e) {
      StoringKeepsTrack(s, w, e);
    } else {
      OtherWorkKeepsTrack(s, w, e);
    }
  }

  lemma DeleterKeepsTrack(s: State, d: nat, e: DeleterStep)
    requires MediaOk(s) && Track(s) && DeleterEnabled(s, d, e)
    ensures Track(DeleterNext(s, d, e))
  {
  }

  lemma ReadingStartsTrack(s: State)
    requires MediaOk(s) && SweeperEnabled(s, ReadExpired)
    ensures Track(SweeperNext(s, ReadExpired))
  {
    forall w: nat | w < |s.workers| && Early(s.workers[w]) ensures !HasAsset(s.assets, s.workers[w].id) {
      assert WorkerMediaOk(s.workers[w], s.assets, s.jobs, s.blobs);
    }
  }

  lemma SweptBlobKeepsTrack(s: State, path: string, ok: bool, landed: bool)
    requires Track(s) && SweeperEnabled(s, SweepBlob(path, ok, landed))
    requires forall a :: a in s.assets ==> JobIdOf(s.assets[a].path) == s.assets[a].jobId
    ensures Track(SweeperNext(s, SweepBlob(path, ok, landed)))
  {
  }

  lemma SweeperKeepsTrack(s: State, e: SweeperStep)
    requires MediaOk(s) && Track(s) && SweeperEnabled(s, e)
    ensures Track(SweeperNext(s, e))
  {
    match e
    case ReadExpired => ReadingStartsTrack(s);
    case SweepBlob(path, ok, landed) => SweptBlobKeepsTrack(s, path, ok, landed);
    case _ =>
  }

  lemma TrackKept(s: State, e: Step)
    requires Sound(s) && MediaOk(s) && Track(s) && Enabled(s, e)
    ensures Track(Next(s, e))
  {
    match e
    case OfHandler(h, step) => HandlerKeepsTrack(s, h, step);
    case OfWorker(w, step) => WorkerKeepsTrack(s, w, step);
    case OfDeleter(d, step) => DeleterKeepsTrack(s, d, step);
    case OfSweeper(step) => SweeperKeepsTrack(s, step);
    case _ =>
  }

  /** Everything but the start of another sweep. */
  predicate SameSweep(e: Step) {
    !(e.OfSweeper? && e.sweeper.ReadExpired?)
  }

  /** The sweep's first query stands: what it read, and which of that had a blob. */
  ghost predicate SameList(t: State, read: set<string>, present: set<string>) {
    t.sweeper.Sweeping? ==> t.sweeper.read == read && t.sweeper.present == present
  }

  lemma {:induction false} SweepKeepsItsList(s: State, steps: seq<Step>, read: set<string>, present: set<string>)
    requires Sound(s) && MediaOk(s) && Track(s) && ValidRun(s, steps) && forall e :: e in steps ==> SameSweep(e)
    requires SameList(s, read, present)
    ensures var t := After(s, steps); Sound(t) && MediaOk(t) && Track(t) && SameList(t, read, present)
    decreases steps
  {
    if steps != [] {
      assert steps[0] in steps;
      SoundKept(s, steps[0]);
      MediaKept(s, steps[0]);
      TrackKept(s, steps[0]);
      SweepListUnchanged(s, steps[0]);
      SweepKeepsItsList(Next(s, steps[0]), steps[1..], read, present);
    }
  }

  lemma SweepListUnchanged(s: State, e: Step)
    requires Enabled(s, e) && SameSweep(e)
    ensures Next(s, e).sweeper.Sweeping? ==>
      s.sweeper.Sweeping? && Next(s, e).sweeper.read == s.sweeper.read && Next(s, e).sweeper.present == s.sweeper.present
  {
    match e
    case OfHandler(h, step) => HandlerFrame(s, h, step);
    case OfWorker(w, step) => WorkerFrame(s, w, step);
    case OfDeleter(d, step) => DeleterFrame(s, d, step);
    case _ =>
  }

  /** Some delete of this blob in the run was refused and did not take effect. */
  predicate RefusedIn(steps: seq<Step>, path: string) { OfSweeper(SweepBlob(path, false, false)) in steps }

  /** Some delete of it was not acknowledged, whether or not it took effect. */
  predicate UnacknowledgedIn(steps: seq<Step>, path: string) {
    RefusedIn(steps, path) || OfSweeper(SweepBlob(path, false, true)) in steps
  }

  lemma OwnStepRecordsRefusals(s: State, e: SweeperStep, path: string)
    requires SweeperEnabled(s, e) && SameSweep(OfSweeper(e)) && SweeperNext(s, e).sweeper.Sweeping?
    ensures s.sweeper.Sweeping?
    ensures path in SweeperNext(s, e).sweeper.kept <==> path in s.sweeper.kept || e == SweepBlob(path, false, false)
    ensures path in SweeperNext(s, e).sweeper.failed
      <==> path in s.sweeper.failed || UnacknowledgedIn([OfSweeper(e)], path)
  {
  }

  lemma StepRecordsRefusals(s: State, e: Step, path: string)
    requires Enabled(s, e) && SameSweep(e) && Next(s, e).sweeper.Sweeping?
    ensures s.sweeper.Sweeping?
    ensures path in Next(s, e).sweeper.kept <==> path in s.sweeper.kept || e == OfSweeper(SweepBlob(path, false, false))
    ensures path in Next(s, e).sweeper.failed <==> path in s.sweeper.failed || UnacknowledgedIn([e], path)
  {
    match e
    case OfHandler(h, step) => HandlerFrame(s, h, step);
    case OfWorker(w, step) => WorkerFrame(s, w, step);
    case OfDeleter(d, step) => DeleterFrame(s, d, step);
    case OfSweeper(step) => OwnStepRecordsRefusals(s, step, path);
    case _ =>
  }

  /** While one sweep lasts, its record of refused deletes is the run's. */
  lemma {:induction false} RecordsRefusals(s: State, steps: seq<Step>, path: string)
    requires ValidRun(s, steps) && (forall e :: e in steps ==> SameSweep(e)) && After(s, steps).sweeper.Sweeping?
    ensures s.sweeper.Sweeping?
    ensures path in After(s, steps).sweeper.kept <==> path in s.sweeper.kept || RefusedIn(steps, path)
    ensures path in After(s, steps).sweeper.failed <==> path in s.sweeper.failed || UnacknowledgedIn(steps, path)
    decreases steps
  {
    if steps != [] {
      assert steps[0] in steps && steps == [steps[0]] + steps[1..];
      RecordsRefusals(Next(s, steps[0]), steps[1..], path);
      StepRecordsRefusals(s, steps[0], path);
    }
  }

  /** The row's asset goes with the sweep's second query. */
  predicate GoesWithTheRow(s: State, a: nat) {
    && a in s.assets && s.assets[a].jobId in s.jobs
    && s.jobs[s.assets[a].jobId].createdAt + s.retention < s.now
  }

  /** What the sweep's own record says at the moment of its second query. */
  lemma OrphansByRecord(t: State, a: nat)
    requires Track(t) && t.sweeper.Sweeping? && t.sweeper.remaining == {} && a in t.assets
    ensures var path := t.assets[a].path;
      path in t.blobs <==> path !in t.sweeper.read || (path in t.sweeper.present && path in t.sweeper.kept)
  {
  }

  lemma SweepBegins(s: State)
    requires Sound(s) && MediaOk(s) && s.up && SweeperEnabled(s, ReadExpired)
    ensures var t := SweeperNext(s, ReadExpired);
      && Sound(t) && MediaOk(t) && Track(t)
      && t.sweeper.read == ExpiredPaths(s.assets, s.jobs, s.now, s.retention)
      && t.sweeper.present == t.sweeper.read * s.blobs
  {
    SoundKept(s, OfSweeper(ReadExpired));
    MediaKept(s, OfSweeper(ReadExpired));
    ReadingStartsTrack(s);
  }

  /** The first query, run in this state, returns the path: some asset of a job older than the window has it. */
  ghost predicate Returned(s: State, path: string) {
    exists a :: a in s.assets && s.assets[a].path == path && GoesWithTheRow(s, a)
  }

  lemma ReturnedExactly(s: State, path: string)
    ensures path in ExpiredPaths(s.assets, s.jobs, s.now, s.retention) <==> Returned(s, path)
  {
    if path in ExpiredPaths(s.assets, s.jobs, s.now, s.retention) {
      var a :| a in s.assets && s.assets[a].path == path && s.assets[a].jobId in s.jobs
        && Expired(s.jobs[s.assets[a].jobId], s.now, s.retention);
      assert GoesWithTheRow(s, a);
    }
  }

  /** One sweep from its first query on, up to where its second can run; everything else may go on in between. */
  ghost predicate OneSweep(s: State, during: seq<Step>) {
    && s.up && SweeperEnabled(s, ReadExpired)
    && ValidRun(SweeperNext(s, ReadExpired), during) && (forall e :: e in during ==> SameSweep(e))
    && SweeperEnabled(After(SweeperNext(s, ReadExpired), during), DeleteExpiredRows)
  }

  function AtSecondQuery(s: State, during: seq<Step>): State
    requires OneSweep(s, during)
  {
    After(SweeperNext(s, ReadExpired), during)
  }

  /** A blob that no asset row names any more. */
  ghost predicate Orphan(s: State, path: string) {
    path in s.blobs && forall a :: a in s.assets ==> s.assets[a].path != path
  }

  /** The row goes, and with it the only name of its blob. */
  lemma RowsGoWithoutTheBlob(t: State, a: nat)
    requires AssetsOk(t.assets, t.jobs, t.history) && SweeperEnabled(t, DeleteExpiredRows) && GoesWithTheRow(t, a)
    ensures var path := t.assets[a].path;
      Orphan(SweeperNext(t, DeleteExpiredRows), path) <==> path in t.blobs
  {
  }

  lemma AtSecondQueryHolds(s: State, during: seq<Step>)
    requires Sound(s) && MediaOk(s) && OneSweep(s, during)
    ensures var t := AtSecondQuery(s, during); var read := ExpiredPaths(s.assets, s.jobs, s.now, s.retention);
      MediaOk(t) && Track(t) && SameList(t, read, read * s.blobs)
  {
    SweepBegins(s);
    var read := ExpiredPaths(s.assets, s.jobs, s.now, s.retention);
    SweepKeepsItsList(SweeperNext(s, ReadExpired), during, read, read * s.blobs);
  }

  lemma SweepLeaves(s: State, during: seq<Step>, a: nat)
    requires Sound(s) && MediaOk(s) && OneSweep(s, during) && a in AtSecondQuery(s, during).assets
    ensures var t := AtSecondQuery(s, during); var path := t.assets[a].path;
      path in t.blobs
      <==> (path !in ExpiredPaths(s.assets, s.jobs, s.now, s.retention) || (path in s.blobs && path in t.sweeper.kept))
  {
    AtSecondQueryHolds(s, during);
    OrphansByRecord(AtSecondQuery(s, during), a);
  }

  /**
   * The second query orphans the blob of an asset whose row it removes if and only if the first query did not return
   * it - the job expired, or the asset appeared, in between - or it did, the blob was there, and its delete was refused
   * without taking effect.
   */
  lemma SweepOrphansExactly(s0: State, before: seq<Step>, during: seq<Step>, a: nat)
    requires Initial(s0) && ValidRun(s0, before) && OneSweep(After(s0, before), during)
    requires GoesWithTheRow(AtSecondQuery(After(s0, before), during), a)
    ensures var s := After(s0, before); var t := AtSecondQuery(s, during); var path := t.assets[a].path;
      Orphan(SweeperNext(t, DeleteExpiredRows), path)
      <==> (!Returned(s, path) || (path in s.blobs && RefusedIn(during, path)))
  {
    RecordsRefusals(SweeperNext(After(s0, before), ReadExpired), during,
                    AtSecondQuery(After(s0, before), during).assets[a].path);
    ReturnedExactly(After(s0, before), AtSecondQuery(After(s0, before), during).assets[a].path);
    Reaches(s0, before);
    AtSecondQueryHolds(After(s0, before), during);
    SweepLeaves(After(s0, before), during, a);
    RowsGoWithoutTheBlob(AtSecondQuery(After(s0, before), during), a);
  }
}
