/**
 * What a user's deletion leaves behind. The rows go first, then the blobs of the paths read
 * before that, while workers, other deletions and everything else go on.
 */
module DeletionAccounting {
  import opened Basics
  import opened JobStatuses
  import opened Tables
  import opened BlobPaths
  import opened Protocol
  import opened ProtocolSafety
  import opened ProtocolMedia
  import opened JobGuarantees
  import opened SweepAccounting

  // ---------------------------------------------------------------- blobs, one step at a time

  /** The step puts a blob at `path`. */
  predicate Uploads(s: State, e: Step, path: string)
    requires Enabled(s, e)
  {
    e.OfWorker? && (e.worker.Upload? || (e.worker.UploadError? && e.worker.landed)) && s.workers[e.w].path == path
  }

  /** The step is deletion `d` taking the blob at `path` away, acknowledged or not. */
  predicate Deletes(e: Step, d: nat, path: string) {
    && e.OfDeleter? && e.d == d && e.deleter.DeleteBlob?
    && e.deleter.path == path && (e.deleter.ok || e.deleter.landed)
  }

  predicate Sweeps(e: Step, path: string) {
    && e.OfSweeper? && e.sweeper.SweepBlob?
    && e.sweeper.path == path && (e.sweeper.ok || e.sweeper.landed)
  }

  predicate DeletesByAny(e: Step, path: string) { e.OfDeleter? && Deletes(e, e.d, path) }

  lemma WorkerMovesBlobs(s: State, w: nat, e: WorkerStep, path: string)
    requires s.up && WorkerEnabled(s, w, e)
    ensures path in WorkerNext(s, w, e).blobs <==> path in s.blobs || Uploads(s, OfWorker(w, e), path)
  {
  }

  lemma OthersMoveBlobs(s: State, h: nat, e: HandlerStep, f: DeleterStep, g: SweeperStep, path: string)
    ensures HandlerEnabled(s, h, e) ==> HandlerNext(s, h, e).blobs == s.blobs
    ensures DeleterEnabled(s, h, f) ==>
      (path in DeleterNext(s, h, f).blobs <==> path in s.blobs && !Deletes(OfDeleter(h, f), h, path))
    ensures SweeperEnabled(s, g) ==>
      (path in SweeperNext(s, g).blobs <==> path in s.blobs && !Sweeps(OfSweeper(g), path))
  {
  }

  /** Only uploads, deletions and sweeps move blobs. */
  lemma StepMovesBlobs(s: State, e: Step, path: string)
    requires Enabled(s, e)
    ensures path in Next(s, e).blobs
      <==> ((path in s.blobs && !DeletesByAny(e, path) && !Sweeps(e, path)) || Uploads(s, e, path))
  {
    match e
    case OfHandler(h, step) => OthersMoveBlobs(s, h, step, EndDelete, ReadExpired, path);
    case OfWorker(w, step) => WorkerMovesBlobs(s, w, step, path);
    case OfDeleter(d, step) => OthersMoveBlobs(s, d, Enqueue, step, ReadExpired, path);
    case OfSweeper(step) => OthersMoveBlobs(s, 0, Enqueue, EndDelete, step, path);
    case _ =>
  }

  // ---------------------------------------------------------------- one deletion under way

  /** Deletion `d` goes on, the process lives, and no sweep touches this job's blobs. */
  predicate Undisturbed(e: Step, d: nat, id: string) {
    && !e.Crash?
    && !(e.OfDeleter? && e.d == d && (e.deleter.EndDelete? || e.deleter.ReadForDelete?))
    && !(e.OfSweeper? && e.sweeper.SweepBlob? && JobIdOf(e.sweeper.path) == id)
  }

  predicate NobodyEarly(workers: seq<Worker>, id: string) {
    forall w: nat :: w < |workers| && Early(workers[w]) ==> workers[w].id != id
  }

  /** Deletion `d` of job `id` read these paths; once it has removed the rows it is the only one that did. */
  ghost predicate UnderWay(s: State, d: nat, id: string, read: set<string>) {
    && d in s.deleters && s.deleters[d].id == id && s.deleters[d].paths <= read
    && (forall path :: path in read ==> JobIdOf(path) == id)
    && (read != {} ==> WasClaimed(s.history, id) && NobodyEarly(s.workers, id))
    && (s.deleters[d].Reading? ==> s.deleters[d].paths == read)
    && (s.deleters[d].Removing? ==>
          forall other :: other in s.deleters && other != d && s.deleters[other].Removing? ==> s.deleters[other].id != id)
  }

  /** Without a row of the caller's own the deletion removes nothing: it is dropped, and stays dropped. */
  ghost predicate Hopeless(s: State, d: nat, id: string) {
    || d !in s.deleters
    || (s.deleters[d].Reading? && s.deleters[d].id == id && id in s.history && !OwnedBy(s.jobs, id, s.deleters[d].user))
  }

  lemma DeleterStaysHopeless(s: State, x: nat, e: DeleterStep, d: nat, id: string)
    requires DeleterEnabled(s, x, e) && Hopeless(s, d, id) && Undisturbed(OfDeleter(x, e), d, id)
    ensures Hopeless(DeleterNext(s, x, e), d, id)
  {
  }

  lemma RowsKeepHopeless(s: State, t: State, d: nat, id: string)
    requires RowsProgress(s, t) && t.deleters == s.deleters && Hopeless(s, d, id)
    ensures Hopeless(t, d, id)
  {
  }

  lemma StaysHopeless(s: State, e: Step, d: nat, id: string)
    requires RowsOk(s.jobs, s.history, s.now) && Enabled(s, e) && Hopeless(s, d, id) && Undisturbed(e, d, id)
    ensures Hopeless(Next(s, e), d, id)
  {
    if e.OfDeleter? {
      DeleterStaysHopeless(s, e.d, e.deleter, d, id);
    } else {
      StepProgress(s, e);
      OthersLeaveDeleters(s, e);
      RowsKeepHopeless(s, Next(s, e), d, id);
    }
  }

  lemma OthersLeaveDeleters(s: State, e: Step)
    requires Enabled(s, e) && !e.OfDeleter? && !e.Crash?
    ensures Next(s, e).deleters == s.deleters
  {
    match e
    case OfHandler(h, step) => HandlerFrame(s, h, step);
    case OfWorker(w, step) => WorkerFrame(s, w, step);
    case OfSweeper(step) => SweeperFrame(s, step);
    case _ =>
  }

  predicate AllUndisturbed(steps: seq<Step>, d: nat, id: string) { forall e :: e in steps ==> Undisturbed(e, d, id) }

  lemma {:induction false} HopelessForGood(s: State, steps: seq<Step>, d: nat, id: string)
    requires Sound(s) && ValidRun(s, steps) && AllUndisturbed(steps, d, id) && Hopeless(s, d, id)
    ensures Hopeless(After(s, steps), d, id)
    decreases steps
  {
    if steps != [] {
      assert steps[0] in steps;
      SoundKept(s, steps[0]);
      StaysHopeless(s, steps[0], d, id);
      HopelessForGood(Next(s, steps[0]), steps[1..], d, id);
    }
  }

  // ---------------------------------------------------------------- the deletion's facts are kept

  /** The job's claim stands and no worker takes it up again. */
  lemma WorkerKeepsSettled(s: State, w: nat, e: WorkerStep, id: string)
    requires RowsOk(s.jobs, s.history, s.now) && CrewOk(s) && WorkerEnabled(s, w, e)
    requires WasClaimed(s.history, id) && NobodyEarly(s.workers, id)
    ensures var t := WorkerNext(s, w, e); WasClaimed(t.history, id) && NobodyEarly(t.workers, id)
  {
    var t := WorkerNext(s, w, e);
    WorkerMovesCrew(s, w, e);
    forall v: nat | v < |t.workers| && Early(t.workers[v]) ensures t.workers[v].id != id {
      if v == w {
        EarlyWasEarly(s, w, e);
      }
    }
  }

  /** A worker becomes early only by its claim. */
  lemma EarlyWasEarly(s: State, w: nat, e: WorkerStep)
    requires RowsOk(s.jobs, s.history, s.now) && WorkerEnabled(s, w, e)
    ensures var x := WorkerNext(s, w, e).workers[w];
      Early(x) ==> (Early(s.workers[w]) && x.id == s.workers[w].id) || !WasClaimed(s.history, x.id)
  {
  }

  lemma WorkerKeepsUnderWay(s: State, w: nat, e: WorkerStep, d: nat, id: string, read: set<string>)
    requires RowsOk(s.jobs, s.history, s.now) && CrewOk(s) && WorkerEnabled(s, w, e) && UnderWay(s, d, id, read)
    ensures UnderWay(WorkerNext(s, w, e), d, id, read)
  {
    WorkerFrame(s, w, e);
    if read != {} {
      WorkerKeepsSettled(s, w, e, id);
    }
  }

  lemma HandlerKeepsUnderWay(s: State, h: nat, e: HandlerStep, d: nat, id: string, read: set<string>)
    requires RowsOk(s.jobs, s.history, s.now) && HandlerEnabled(s, h, e) && UnderWay(s, d, id, read)
    ensures UnderWay(HandlerNext(s, h, e), d, id, read)
  {
    HandlerFrame(s, h, e);
    HandlerProgress(s, h, e);
  }

  lemma DeleterKeepsUnderWay(s: State, x: nat, e: DeleterStep, d: nat, id: string, read: set<string>)
    requires MediaOk(s) && DeleterEnabled(s, x, e) && Undisturbed(OfDeleter(x, e), d, id) && UnderWay(s, d, id, read)
    requires forall j :: j in s.jobs ==> j in s.history
    ensures var t := DeleterNext(s, x, e); UnderWay(t, d, id, read) || Hopeless(t, d, id)
  {
  }

  lemma SweeperKeepsUnderWay(s: State, e: SweeperStep, d: nat, id: string, read: set<string>)
    requires SweeperEnabled(s, e) && UnderWay(s, d, id, read)
    ensures UnderWay(SweeperNext(s, e), d, id, read)
  {
    SweeperFrame(s, e);
  }

  lemma StepKeepsUnderWay(s: State, e: Step, d: nat, id: string, read: set<string>)
    requires Sound(s) && MediaOk(s) && Enabled(s, e) && Undisturbed(e, d, id) && UnderWay(s, d, id, read)
    ensures UnderWay(Next(s, e), d, id, read) || Hopeless(Next(s, e), d, id)
  {
    match e
    case OfHandler(h, step) => HandlerKeepsUnderWay(s, h, step, d, id, read);
    case OfWorker(w, step) => WorkerKeepsUnderWay(s, w, step, d, id, read);
    case OfDeleter(x, step) => DeleterKeepsUnderWay(s, x, step, d, id, read);
    case OfSweeper(step) => SweeperKeepsUnderWay(s, step, d, id, read);
    case _ =>
  }

  /** Only this deletion takes the job's blobs away, and only those it read; and those nobody uploads again. */
  lemma OnlyOursMoves(s: State, e: Step, d: nat, id: string, read: set<string>, path: string)
    requires MediaOk(s) && Enabled(s, e) && Undisturbed(e, d, id) && UnderWay(s, d, id, read) && !Hopeless(s, d, id)
    requires JobIdOf(path) == id
    ensures DeletesByAny(e, path) ==> Deletes(e, d, path) && path in read
    ensures Deletes(e, d, path) ==> DeletesByAny(e, path)
    ensures !Sweeps(e, path)
    ensures Uploads(s, e, path) ==> path !in read
  {
    if e.OfWorker? {
      assert WorkerMediaOk(s.workers[e.w], s.assets, s.jobs, s.blobs);
    }
  }

  predicate SomeDeletes(steps: seq<Step>, d: nat, path: string) {
    steps != [] && (Deletes(steps[0], d, path) || SomeDeletes(steps[1..], d, path))
  }

  predicate SomeUploads(s: State, steps: seq<Step>, path: string)
    requires ValidRun(s, steps)
    decreases steps
  {
    steps != [] && (Uploads(s, steps[0], path) || SomeUploads(Next(s, steps[0]), steps[1..], path))
  }

  /** What became of one of the job's blobs by the end of the run. */
  ghost predicate Left(s: State, steps: seq<Step>, d: nat, read: set<string>, path: string)
    requires ValidRun(s, steps)
  {
    if path in read then path in s.blobs && !SomeDeletes(steps, d, path)
    else path in s.blobs || SomeUploads(s, steps, path)
  }

  lemma {:induction false} Fate(s: State, steps: seq<Step>, d: nat, id: string, read: set<string>, path: string)
    requires Sound(s) && MediaOk(s) && UnderWay(s, d, id, read) && JobIdOf(path) == id
    requires ValidRun(s, steps) && AllUndisturbed(steps, d, id)
    requires !Hopeless(After(s, steps), d, id)
    ensures path in After(s, steps).blobs <==> Left(s, steps, d, read, path)
    decreases steps
  {
    if steps != [] {
      var e := steps[0];
      var t := Next(s, e);
      assert e in steps;
      if Hopeless(s, d, id) {
        HopelessForGood(s, steps, d, id);
      }
      SoundKept(s, e);
      MediaKept(s, e);
      StepKeepsUnderWay(s, e, d, id, read);
      if Hopeless(t, d, id) {
        HopelessForGood(t, steps[1..], d, id);
      }
      StepMovesBlobs(s, e, path);
      OnlyOursMoves(s, e, d, id, read, path);
      Fate(t, steps[1..], d, id, read, path);
    }
  }

  /** Reading the paths starts the deletion. */
  lemma ReadingIsUnderWay(s: State, d: nat, id: string, user: nat)
    requires MediaOk(s) && DeleterEnabled(s, d, ReadForDelete(id, user))
    ensures UnderWay(DeleterNext(s, d, ReadForDelete(id, user)), d, id, PathsOfJob(s.assets, s.jobs, id, user))
  {
    forall w: nat | w < |s.workers| && Early(s.workers[w]) ensures !HasAsset(s.assets, s.workers[w].id) {
      assert WorkerMediaOk(s.workers[w], s.assets, s.jobs, s.blobs);
    }
  }

  /** A deletion from its read of the paths on, its rows removed by the end, its blobs perhaps not all tried. */
  ghost predicate OneDeletion(s: State, d: nat, id: string, user: nat, during: seq<Step>) {
    && s.up && DeleterEnabled(s, d, ReadForDelete(id, user))
    && ValidRun(DeleterNext(s, d, ReadForDelete(id, user)), during) && AllUndisturbed(during, d, id)
    && var t := After(DeleterNext(s, d, ReadForDelete(id, user)), during);
       d in t.deleters && t.deleters[d].Removing?
  }

  lemma DeletionBegins(s: State, d: nat, id: string, user: nat)
    requires Sound(s) && MediaOk(s) && s.up && DeleterEnabled(s, d, ReadForDelete(id, user))
    ensures var t := DeleterNext(s, d, ReadForDelete(id, user));
      Sound(t) && MediaOk(t) && UnderWay(t, d, id, PathsOfJob(s.assets, s.jobs, id, user)) && t.blobs == s.blobs
  {
    SoundKept(s, OfDeleter(d, ReadForDelete(id, user)));
    MediaKept(s, OfDeleter(d, ReadForDelete(id, user)));
    ReadingIsUnderWay(s, d, id, user);
  }

  /** With its job gone, no asset row names a path of the job. */
  lemma GoneJobsNameNothing(t: State, path: string)
    requires AssetsOk(t.assets, t.jobs, t.history) && JobIdOf(path) !in t.jobs
    ensures Orphan(t, path) <==> path in t.blobs
  {
  }

  lemma RemovingMeansGone(t: State, d: nat, id: string, read: set<string>)
    requires DeletersOk(t.deleters, t.jobs, t.history) && UnderWay(t, d, id, read) && t.deleters[d].Removing?
    ensures id !in t.jobs
  {
  }

  lemma {:induction false} StaysUnderWay(s: State, steps: seq<Step>, d: nat, id: string, read: set<string>)
    requires Sound(s) && MediaOk(s) && UnderWay(s, d, id, read)
    requires ValidRun(s, steps) && AllUndisturbed(steps, d, id) && !Hopeless(After(s, steps), d, id)
    ensures Sound(After(s, steps)) && MediaOk(After(s, steps)) && UnderWay(After(s, steps), d, id, read)
    decreases steps
  {
    if steps != [] {
      var t := Next(s, steps[0]);
      assert steps[0] in steps;
      SoundKept(s, steps[0]);
      MediaKept(s, steps[0]);
      StepKeepsUnderWay(s, steps[0], d, id, read);
      if Hopeless(t, d, id) {
        HopelessForGood(t, steps[1..], d, id);
      }
      StaysUnderWay(t, steps[1..], d, id, read);
    }
  }

  /** Some asset row of the job has this path. */
  ghost predicate Named(s: State, id: string, path: string) {
    exists a :: a in s.assets && s.assets[a].jobId == id && s.assets[a].path == path
  }

  /** A deletion that goes through is its owner's, so it read the path of every asset row the job had. */
  lemma ReadsWhatIsNamed(s: State, d: nat, id: string, user: nat, during: seq<Step>, path: string)
    requires Sound(s) && MediaOk(s) && OneDeletion(s, d, id, user, during)
    ensures path in PathsOfJob(s.assets, s.jobs, id, user) <==> Named(s, id, path)
  {
    if id in s.jobs && s.jobs[id].user != user {
      var begun := DeleterNext(s, d, ReadForDelete(id, user));
      DeletionBegins(s, d, id, user);
      assert id in s.history;
      HopelessForGood(begun, during, d, id);
      assert false;
    }
  }

  /** A path leaves the deletion's list only when its blob's delete is tried. */
  lemma {:induction false} TriedWhenGone(s: State, steps: seq<Step>, d: nat, id: string, path: string)
    requires ValidRun(s, steps) && AllUndisturbed(steps, d, id) && d in s.deleters && path in s.deleters[d].paths
    requires var t := After(s, steps); d in t.deleters && path !in t.deleters[d].paths
    ensures exists e :: e in steps && Tries(e, d, path)
    decreases steps
  {
    assert steps != [];
    var e := steps[0];
    assert e in steps;
    if !Tries(e, d, path) {
      StepKeepsPath(s, e, d, id, path);
      if d in Next(s, e).deleters {
        TriedWhenGone(Next(s, e), steps[1..], d, id, path);
      } else {
        StaysAway(Next(s, e), steps[1..], d, id);
      }
    }
  }

  predicate Tries(e: Step, d: nat, path: string) {
    e.OfDeleter? && e.d == d && e.deleter.DeleteBlob? && e.deleter.path == path
  }

  lemma StepKeepsPath(s: State, e: Step, d: nat, id: string, path: string)
    requires Enabled(s, e) && Undisturbed(e, d, id) && d in s.deleters && path in s.deleters[d].paths && !Tries(e, d, path)
    ensures d in Next(s, e).deleters ==> path in Next(s, e).deleters[d].paths
  {
    if !e.OfDeleter? { OthersLeaveDeleters(s, e); }
  }

  lemma StepStaysAway(s: State, e: Step, d: nat, id: string)
    requires Enabled(s, e) && Undisturbed(e, d, id) && d !in s.deleters
    ensures d !in Next(s, e).deleters
  {
    if !e.OfDeleter? { OthersLeaveDeleters(s, e); }
  }

  lemma {:induction false} StaysAway(s: State, steps: seq<Step>, d: nat, id: string)
    requires ValidRun(s, steps) && AllUndisturbed(steps, d, id) && d !in s.deleters
    ensures d !in After(s, steps).deleters
    decreases steps
  {
    if steps != [] {
      assert steps[0] in steps;
      StepStaysAway(s, steps[0], d, id);
      StaysAway(Next(s, steps[0]), steps[1..], d, id);
    }
  }

  lemma {:induction false} TriedIsDeleted(steps: seq<Step>, d: nat, path: string, e: Step)
    requires e in steps && Deletes(e, d, path)
    ensures SomeDeletes(steps, d, path)
  {
    if steps[0] != e {
      TriedIsDeleted(steps[1..], d, path, e);
    }
  }

  /**
   * What a deletion is for: when it has removed the rows, has no path left to try, and every delete it tried took
   * effect, no blob of an asset row the job had when the paths were read is left.
   */
  lemma FinishedDeletionLeavesNothing(s0: State, before: seq<Step>, d: nat, id: string, user: nat, during: seq<Step>, a: nat)
    requires Initial(s0) && ValidRun(s0, before) && OneDeletion(After(s0, before), d, id, user, during)
    requires a in After(s0, before).assets && After(s0, before).assets[a].jobId == id
    requires After(DeleterNext(After(s0, before), d, ReadForDelete(id, user)), during).deleters[d].paths == {}
    requires forall e, path :: e in during && Tries(e, d, path) ==> Deletes(e, d, path)
    ensures var t := After(DeleterNext(After(s0, before), d, ReadForDelete(id, user)), during);
      After(s0, before).assets[a].path !in t.blobs && id !in t.jobs
  {
    var s := After(s0, before);
    var path := s.assets[a].path;
    var begun := DeleterNext(s, d, ReadForDelete(id, user));
    var t := After(begun, during);
    Reaches(s0, before);
    ReadsWhatIsNamed(s, d, id, user, during, path);
    TriedWhenGone(begun, during, d, id, path);
    var e :| e in during && Tries(e, d, path);
    TriedIsDeleted(during, d, path, e);
    DeletionBegins(s, d, id, user);
    var read := PathsOfJob(s.assets, s.jobs, id, user);
    Fate(begun, during, d, id, read, path);
    StaysUnderWay(begun, during, d, id, read);
    RemovingMeansGone(t, d, id, read);
  }

  /**
   * Once a deletion has removed the rows, a blob of the job is orphaned if and only if either no asset row
   * had its path when the paths were read, and the blob was there or was uploaded since, or one had, the blob was
   * there, and no delete of it has taken effect: refused, or not tried because the request was dropped.
   */
  lemma DeletionOrphansExactly(s0: State, before: seq<Step>, d: nat, id: string, user: nat, during: seq<Step>, path: string)
    requires Initial(s0) && ValidRun(s0, before) && OneDeletion(After(s0, before), d, id, user, during)
    requires JobIdOf(path) == id
    ensures var s := After(s0, before); var begun := DeleterNext(s, d, ReadForDelete(id, user));
      Orphan(After(begun, during), path) <==>
        if Named(s, id, path) then path in s.blobs && !SomeDeletes(during, d, path)
        else path in s.blobs || SomeUploads(begun, during, path)
  {
    var s := After(s0, before);
    var begun := DeleterNext(s, d, ReadForDelete(id, user));
    var read := PathsOfJob(s.assets, s.jobs, id, user);
    Reaches(s0, before);
    DeletionBegins(s, d, id, user);
    Fate(begun, during, d, id, read, path);
    StaysUnderWay(begun, during, d, id, read);
    RemovingMeansGone(After(begun, during), d, id, read);
    GoneJobsNameNothing(After(begun, during), path);
    ReadsWhatIsNamed(s, d, id, user, during, path);
  }
}
