/** What can make a job, its asset row or its media disappear: its owner, and the retention window. */
module Survival {
  import opened Basics
  import opened JobStatuses
  import opened Tables
  import opened Protocol
  import opened ProtocolSafety
  import opened ProtocolMedia
  import opened JobGuarantees

  /** The row is there with what never changes about it, and so are its assets. */
  ghost predicate StillThere(s: State, t: State, id: string)
    requires id in s.jobs
  {
    && id in t.jobs
    && t.jobs[id].user == s.jobs[id].user && t.jobs[id].media == s.jobs[id].media
    && t.jobs[id].createdAt == s.jobs[id].createdAt
    && (forall a :: a in s.assets && s.assets[a].jobId == id ==> a in t.assets && t.assets[a] == s.assets[a])
  }

  /** Whether step `e` is the owner's deletion of `id` reaching the rows. */
  predicate RemovesAsOwner(s: State, e: Step, id: string)
    requires Enabled(s, e)
  {
    && e.OfDeleter? && e.deleter.DeleteRows?
    && s.deleters[e.d].id == id && OwnedBy(s.jobs, id, s.deleters[e.d].user)
  }

  /** No step of the run is the owner's deletion of `id`. */
  predicate NotRemovedByOwner(s: State, steps: seq<Step>, id: string)
    requires ValidRun(s, steps)
    decreases steps
  {
    steps == [] || (!RemovesAsOwner(s, steps[0], id) && NotRemovedByOwner(Next(s, steps[0]), steps[1..], id))
  }

  lemma RunningLeavesRow(s: State, written: string, id: string)
    requires id in s.jobs
    ensures StillThere(s, WriteRunning(s, written), id)
  {
  }

  lemma TerminalLeavesRow(s: State, written: string, status: JobStatus, id: string)
    requires id in s.jobs
    ensures StillThere(s, WriteTerminal(s, written, status), id)
  {
  }

  lemma HandlerLeavesRow(s: State, h: nat, e: HandlerStep, id: string)
    requires HandlerEnabled(s, h, e) && id in s.jobs && id in s.history
    ensures StillThere(s, HandlerNext(s, h, e), id)
  {
    if h in s.handlers { TerminalLeavesRow(s, s.handlers[h].id, QUEUE_FULL, id); }
  }

  lemma WorkerLeavesRow(s: State, w: nat, e: WorkerStep, id: string)
    requires WorkerEnabled(s, w, e) && id in s.jobs
    ensures StillThere(s, WorkerNext(s, w, e), id)
  {
    var me := s.workers[w];
    if me.Received? { RunningLeavesRow(s, me.id, id); }
    if me.Finishing? { TerminalLeavesRow(s, me.id, me.outcome, id); }
  }

  lemma DeletionLeavesRow(s: State, d: nat, e: DeleterStep, id: string)
    requires DeleterEnabled(s, d, e) && id in s.jobs
    requires e.DeleteRows? ==> s.deleters[d].id != id || !OwnedBy(s.jobs, id, s.deleters[d].user)
    ensures StillThere(s, DeleterNext(s, d, e), id)
  {
  }

  lemma SweepLeavesRow(s: State, e: SweeperStep, id: string)
    requires SweeperEnabled(s, e) && id in s.jobs && (s.sweeper.Sweeping? ==> s.now <= s.jobs[id].createdAt + s.retention)
    ensures StillThere(s, SweeperNext(s, e), id)
  {
  }

  lemma HidingLeavesRow(s: State, other: string, user: nat, hidden: bool, id: string)
    requires id in s.jobs
    ensures StillThere(s, s.(jobs := WithHidden(s.jobs, other, user, hidden)), id)
  {
  }

  /** With retention switched off no sweep ever begins. */
  predicate SweepsOnlyWithRetention(s: State) { s.sweeper.Sweeping? ==> s.retention > 0 }

  lemma StepSweepsOnlyWithRetention(s: State, e: Step)
    requires Enabled(s, e) && SweepsOnlyWithRetention(s)
    ensures SweepsOnlyWithRetention(Next(s, e))
  {
    StepAgesClock(s, e);
    match e
    case OfHandler(h, step) => HandlerFrame(s, h, step);
    case OfWorker(w, step) => WorkerFrame(s, w, step);
    case _ =>
  }

  lemma {:induction false} RunSweepsOnlyWithRetention(s: State, steps: seq<Step>)
    requires ValidRun(s, steps) && SweepsOnlyWithRetention(s)
    ensures SweepsOnlyWithRetention(After(s, steps))
    decreases steps
  {
    if steps != [] {
      StepSweepsOnlyWithRetention(s, steps[0]);
      RunSweepsOnlyWithRetention(Next(s, steps[0]), steps[1..]);
    }
  }

  /** One step removes a row only as its owner's deletion, or as the sweep's once it has expired. */
  lemma StepLeavesRow(s: State, e: Step, id: string)
    requires Enabled(s, e) && id in s.jobs && id in s.history
    requires !RemovesAsOwner(s, e, id) && SweepsOnlyWithRetention(s)
    requires s.retention > 0 ==> s.now <= s.jobs[id].createdAt + s.retention
    ensures StillThere(s, Next(s, e), id)
  {
    match e
    case OfHandler(h, step) => HandlerLeavesRow(s, h, step, id);
    case OfWorker(w, step) => WorkerLeavesRow(s, w, step, id);
    case OfDeleter(d, step) => DeletionLeavesRow(s, d, step, id);
    case OfSweeper(step) => SweepLeavesRow(s, step, id);
    case Hide(other, user, hidden) => HidingLeavesRow(s, other, user, hidden, id);
    case _ =>
  }

  lemma StepAgesClock(s: State, e: Step)
    requires Enabled(s, e)
    ensures s.now <= Next(s, e).now && Next(s, e).retention == s.retention
  {
    match e
    case OfHandler(h, step) => HandlerFrame(s, h, step);
    case OfWorker(w, step) => WorkerFrame(s, w, step);
    case OfDeleter(d, step) => DeleterFrame(s, d, step);
    case OfSweeper(step) => SweeperFrame(s, step);
    case _ =>
  }

  lemma {:induction false} RunAgesClock(s: State, steps: seq<Step>)
    requires ValidRun(s, steps)
    ensures s.now <= After(s, steps).now && After(s, steps).retention == s.retention
    decreases steps
  {
    if steps != [] {
      StepAgesClock(s, steps[0]);
      RunAgesClock(Next(s, steps[0]), steps[1..]);
    }
  }

  /**
   * Over any run, crashes, sweeps and duplicate deliveries included: a job that its owner does not delete and that was
   * created no longer ago than the retention window is still there, with the same owner and all its assets. Without
   * retention none expires.
   */
  lemma {:induction false} UndeletedJobsStay(s: State, steps: seq<Step>, id: string)
    requires Sound(s) && SweepsOnlyWithRetention(s)
    requires ValidRun(s, steps) && id in s.jobs && NotRemovedByOwner(s, steps, id)
    requires s.retention > 0 ==> After(s, steps).now <= s.jobs[id].createdAt + s.retention
    ensures StillThere(s, After(s, steps), id)
    decreases steps
  {
    if steps != [] {
      var t := Next(s, steps[0]);
      RunAgesClock(s, steps);
      StepLeavesRow(s, steps[0], id);
      StepAgesClock(s, steps[0]);
      StepSweepsOnlyWithRetention(s, steps[0]);
      SoundKept(s, steps[0]);
      UndeletedJobsStay(t, steps[1..], id);
    }
  }

  /**
   * The other side: what the sweep's second query leaves is exactly the jobs created within the retention window, as
   * they were, with all their assets. Whatever is older and still there goes.
   */
  lemma SecondQueryLeavesExactly(s: State)
    requires Enabled(s, OfSweeper(DeleteExpiredRows))
    ensures var t := Next(s, OfSweeper(DeleteExpiredRows));
      && (forall id :: id in t.jobs <==> id in s.jobs && s.now <= s.jobs[id].createdAt + s.retention)
      && (forall id :: id in t.jobs ==> t.jobs[id] == s.jobs[id])
      && AssetsFollow(s.assets, t.assets, t.jobs)
  {
  }

  /**
   * Media once stored can be opened until its owner deletes it or it expires: in every later state of every run the
   * asset row is there and names a blob that exists.
   */
  lemma StoredMediaStays(s0: State, before: seq<Step>, a: nat, steps: seq<Step>)
    requires Initial(s0) && ValidRun(s0, before) && a in After(s0, before).assets
    requires var s := After(s0, before);
      && s.assets[a].jobId in s.jobs
      && ValidRun(s, steps) && NotRemovedByOwner(s, steps, s.assets[a].jobId)
      && (s.retention > 0 ==> After(s, steps).now <= s.jobs[s.assets[a].jobId].createdAt + s.retention)
    ensures var s := After(s0, before); var t := After(s, steps);
      a in t.assets && t.assets[a] == s.assets[a] && t.assets[a].path in t.blobs
  {
    var s := After(s0, before);
    var t := After(s, steps);
    Reaches(s0, before);
    RunSweepsOnlyWithRetention(s0, before);
    UndeletedJobsStay(s, steps, s.assets[a].jobId);
    RunAgesClock(s, steps);
    RunsJoin(s0, before, steps);
    if t.assets[a].path !in t.blobs {
      LiveMediaIsKept(s0, before + steps, a);
    }
  }
}
