/** What the job protocol promises, over every run from an empty database. */
module JobGuarantees {
  import opened Basics
  import opened JobStatuses
  import opened Tables
  import opened BlobPaths
  import opened Protocol
  import opened ProtocolSafety
  import opened ProtocolMedia
  import opened Coverage

  lemma InitialIsSafe(s: State)
    requires Initial(s)
    ensures Safe(s) && Sound(s) && Covered(s) && MediaOk(s)
  {
    assert forall w: nat :: w < |s.workers| ==> s.workers[w].Idle?;
    assert forall p :: HolderId(s, p).None?;
  }

  lemma Reaches(s: State, steps: seq<Step>)
    requires Initial(s) && ValidRun(s, steps)
    ensures Sound(After(s, steps)) && MediaOk(After(s, steps))
  {
    InitialIsSafe(s);
    MediaAlways(s, steps);
  }

  lemma ReachesSteadily(s: State, steps: seq<Step>)
    requires Initial(s) && ValidRun(s, steps) && Steady(steps)
    ensures Safe(After(s, steps)) && MediaOk(After(s, steps))
  {
    InitialIsSafe(s);
    Reaches(s, steps);
    SafeAlways(s, steps);
  }

  // ---------------------------------------------------------------- nothing is stranded

  /**
   * While the process is up, every unfinished job is held by someone who will move it on: a queued one by a handler, a
   * channel slot or a worker about to claim it, a running one by the worker that claimed it. The only exceptions are
   * jobs whose holder was cancelled or lost a database call. This holds even if ids are delivered twice.
   */
  lemma NoJobIsStranded(s0: State, steps: seq<Step>, id: string)
    requires Initial(s0) && ValidRun(s0, steps)
    requires var s := After(s0, steps); s.up && Unfinished(s, id) && id !in s.lost
    ensures exists p :: Covers(After(s0, steps), p, id)
  {
    InitialIsSafe(s0);
    CoveredAlways(s0, steps);
  }

  /** While no id is delivered twice, that holder is the only one. */
  lemma JobsHaveOneHolder(s0: State, steps: seq<Step>, id: string)
    requires Initial(s0) && ValidRun(s0, steps) && Steady(steps)
    requires var s := After(s0, steps); s.up && Unfinished(s, id) && id !in s.lost
    ensures var s := After(s0, steps);
      exists p :: Covers(s, p, id) && forall q :: HolderId(s, q) == Some(id) ==> q == p
  {
    ReachesSteadily(s0, steps);
    NoJobIsStranded(s0, steps, id);
  }

  /** In such runs a job without a holder is exactly one whose holder was recorded as lost. */
  lemma HeldExactlyUnlessLost(s0: State, steps: seq<Step>, id: string)
    requires Initial(s0) && ValidRun(s0, steps) && Steady(steps)
    requires After(s0, steps).up && Unfinished(After(s0, steps), id)
    ensures Held(After(s0, steps), id) <==> id !in After(s0, steps).lost
  {
    ReachesSteadily(s0, steps);
  }

  /** A request abandoned after its insert, or a worker or handler whose database call failed. */
  predicate LosesHolder(e: Step) {
    || (e.OfHandler? && (e.handler.CancelHandler? || e.handler.FinishRefusedError?))
    || (e.OfWorker? && (e.worker.ClaimError? || e.worker.FinishOutcomeError?))
  }

  lemma {:induction false} OnlyFailuresLose(s: State, steps: seq<Step>)
    requires ValidRun(s, steps) && s.lost == {} && forall e :: e in steps ==> !LosesHolder(e)
    ensures After(s, steps).lost == {}
    decreases steps
  {
    if steps != [] {
      var e := steps[0];
      assert e in steps;
      assert Next(s, e).lost == {};
      OnlyFailuresLose(Next(s, e), steps[1..]);
    }
  }

  /** Without cancelled handlers and failed database calls, nothing is stranded at all. */
  lemma NoFailureNoStranding(s0: State, steps: seq<Step>, id: string)
    requires Initial(s0) && ValidRun(s0, steps) && forall e :: e in steps ==> !LosesHolder(e)
    requires var s := After(s0, steps); s.up && Unfinished(s, id)
    ensures var s := After(s0, steps);
      exists p :: Covers(s, p, id) && (Steady(steps) ==> forall q :: HolderId(s, q) == Some(id) ==> q == p)
  {
    OnlyFailuresLose(s0, steps);
    NoJobIsStranded(s0, steps, id);
    if Steady(steps) {
      JobsHaveOneHolder(s0, steps, id);
    }
  }

  /** The start-up sweep has failed every leftover before a worker exists. */
  lemma RestartBeginsClean(s: State)
    requires Enabled(s, Restart)
    ensures var t := Next(s, Restart);
      && (forall id :: !Unfinished(t, id))
      && t.lost == {} && t.workers == [Idle, Idle, Idle, Idle]
      && (forall id :: id in s.jobs ==> id in t.jobs)
      && (forall id :: Unfinished(s, id) ==> StatusOf(t.jobs[id]) == INTERRUPTED)
  {
    forall id | Unfinished(s, id) ensures StatusOf(Restarted(s).jobs[id]) == INTERRUPTED {
      StatusReadsBack(INTERRUPTED);
    }
  }

  // ---------------------------------------------------------------- how much can be in flight

  function RunningJobs(s: State): set<string> {
    set id | id in s.jobs && s.jobs[id].status.RunningName? && id !in s.lost
  }

  function QueuedJobs(s: State): set<string> {
    set id | id in s.jobs && s.jobs[id].status.QueuedName? && id !in s.lost
  }

  /** Where each of a set of unfinished jobs is held. */
  lemma {:induction false} HoldersOf(s: State, ids: set<string>) returns (where: map<string, Holder>)
    requires Covered(s) && s.up && forall id :: id in ids ==> Unfinished(s, id) && id !in s.lost
    ensures where.Keys == ids && forall id :: id in ids ==> Covers(s, where[id], id)
    decreases ids
  {
    if ids == {} {
      where := map[];
    } else {
      var id :| id in ids;
      var rest := HoldersOf(s, ids - {id});
      var p :| Covers(s, p, id);
      where := rest[id := p];
    }
  }

  function WorkerHolders(s: State): set<Holder> {
    set w | 0 <= w < |s.workers| :: AtWorker(w)
  }

  function SlotHolders(s: State): set<Holder> {
    set i | 0 <= i < |s.channel| :: AtSlot(i)
  }

  function HandlerHolders(s: State): set<Holder> {
    set h | h in s.handlers :: AtHandler(h)
  }

  lemma {:induction false} CountSlots(n: nat)
    ensures |set i | 0 <= i < n :: AtSlot(i)| == n
  {
    if n > 0 {
      CountSlots(n - 1);
      assert (set i | 0 <= i < n :: AtSlot(i)) == (set i | 0 <= i < n - 1 :: AtSlot(i)) + {AtSlot(n - 1)};
    }
  }

  lemma {:induction false} CountWorkers(n: nat)
    ensures |set w | 0 <= w < n :: AtWorker(w)| == n
  {
    if n > 0 {
      CountWorkers(n - 1);
      assert (set w | 0 <= w < n :: AtWorker(w)) == (set w | 0 <= w < n - 1 :: AtWorker(w)) + {AtWorker(n - 1)};
    }
  }

  lemma {:induction false} CountHandlers(handlers: map<nat, Handler>)
    ensures |set h | h in handlers :: AtHandler(h)| == |handlers|
    decreases handlers.Keys
  {
    if handlers.Keys != {} {
      var h :| h in handlers;
      var rest := handlers - {h};
      CountHandlers(rest);
      assert (set g | g in handlers :: AtHandler(g)) == (set g | g in rest :: AtHandler(g)) + {AtHandler(h)};
      assert |handlers| == |handlers.Keys| && |rest| == |rest.Keys| && rest.Keys == handlers.Keys - {h};
    }
  }

  lemma RunningIsBounded(s: State)
    requires Shape(s) && Covered(s) && s.up
    ensures |RunningJobs(s)| <= 4
  {
    var running := RunningJobs(s);
    var where := HoldersOf(s, running);
    forall id | id in running ensures where[id] in WorkerHolders(s) {
      assert HoldsRunning(s, where[id]);
    }
    InjectionBound(running, WorkerHolders(s), where);
    CountWorkers(|s.workers|);
  }

  function Places(s: State): set<Holder> {
    WorkerHolders(s) + SlotHolders(s) + HandlerHolders(s)
  }

  lemma PlacesAreFew(s: State)
    ensures |Places(s)| <= |s.workers| + |s.channel| + |s.handlers|
  {
    CountWorkers(|s.workers|);
    CountSlots(|s.channel|);
    CountHandlers(s.handlers);
  }

  lemma HolderIsAPlace(s: State, p: Holder)
    requires HolderId(s, p).Some?
    ensures p in Places(s)
  {
  }

  lemma UnfinishedIsBounded(s: State)
    requires Covered(s) && s.up
    ensures |RunningJobs(s) + QueuedJobs(s)| <= |Places(s)|
  {
    var all := RunningJobs(s) + QueuedJobs(s);
    var where := HoldersOf(s, all);
    forall id | id in all ensures where[id] in Places(s) {
      HolderIsAPlace(s, where[id]);
    }
    InjectionBound(all, Places(s), where);
  }

  function UnfinishedJobs(s: State): set<string> {
    set id | id in s.jobs && Active(s.jobs[id])
  }

  lemma LostJobsAdd(s: State)
    ensures |UnfinishedJobs(s)| <= |RunningJobs(s) + QueuedJobs(s)| + |s.lost|
  {
    var held := RunningJobs(s) + QueuedJobs(s);
    SubsetIsNoLarger(UnfinishedJobs(s), held + s.lost);
    assert held + s.lost == held + (s.lost - held);
    SubsetIsNoLarger(s.lost - held, s.lost);
  }

  /**
   * At most four jobs whose holder is not lost run, at most 64 wait in the channel, and the rest are with request
   * handlers; unfinished rows number no more than that and the lost ones.
   */
  lemma InFlightIsBounded(s0: State, steps: seq<Step>)
    requires Initial(s0) && ValidRun(s0, steps) && After(s0, steps).up
    ensures var s := After(s0, steps);
      && |s.channel| <= 64
      && |RunningJobs(s)| <= 4
      && |RunningJobs(s) + QueuedJobs(s)| <= 64 + 4 + |s.handlers|
      && |UnfinishedJobs(s)| <= 64 + 4 + |s.handlers| + |s.lost|
  {
    Reaches(s0, steps);
    InitialIsSafe(s0);
    CoveredAlways(s0, steps);
    RunningIsBounded(After(s0, steps));
    PlacesAreFew(After(s0, steps));
    UnfinishedIsBounded(After(s0, steps));
    LostJobsAdd(After(s0, steps));
  }

  // ---------------------------------------------------------------- exactly once

  /** Whether step `e` is a `mark_running` that updates the row of `id`. */
  predicate Claims(s: State, e: Step, id: string)
    requires Enabled(s, e)
  {
    e.OfWorker? && ClaimsAt(s, e.w, e.worker, id)
  }

  predicate ClaimsAt(s: State, w: nat, e: WorkerStep, id: string)
    requires WorkerEnabled(s, w, e)
  {
    && (e.Claim? || (e.ClaimError? && e.applied))
    && s.workers[w].id == id
    && Claimable(s.jobs, id)
  }

  function ClaimCount(s: State, steps: seq<Step>, id: string): nat
    requires ValidRun(s, steps)
    decreases steps
  {
    if steps == [] then 0
    else (if Claims(s, steps[0], id) then 1 else 0) + ClaimCount(Next(s, steps[0]), steps[1..], id)
  }

  /** Nothing but the `hidden` flag may differ. */
  predicate SameButHidden(a: Row, b: Row) { b == a.(hidden := b.hidden) }

  /** Owner, type and creation time, which nothing changes. */
  predicate SameRequest(a: Row, b: Row) { b.user == a.user && b.media == a.media && b.createdAt == a.createdAt }

  /** Histories only grow, finished rows stay as they are but for `hidden`, a deleted id never comes back, and
   * what was asked for stays what it was. */
  ghost predicate RowsProgress(s: State, t: State) {
    && (forall id :: id in s.history ==> id in t.history && s.history[id] <= t.history[id])
    && (forall id :: id in s.jobs && id in t.jobs && Terminal(s.jobs[id].status) ==> SameButHidden(s.jobs[id], t.jobs[id]))
    && (forall id :: id in t.jobs && id !in s.jobs ==> id !in s.history)
    && (forall id :: id in s.jobs && id in t.jobs ==> SameRequest(s.jobs[id], t.jobs[id]))
  }

  lemma RunningProgress(s: State, id: string)
    requires id in s.jobs ==> id in s.history
    ensures RowsProgress(s, WriteRunning(s, id))
  {
  }

  lemma TerminalProgress(s: State, id: string, status: JobStatus)
    requires id in s.jobs ==> id in s.history
    ensures RowsProgress(s, WriteTerminal(s, id, status))
  {
  }

  lemma CreateProgress(s: State, h: nat, e: HandlerStep)
    requires HandlerEnabled(s, h, e) && e.Create? && forall id :: id in s.jobs ==> id in s.history
    ensures RowsProgress(s, HandlerNext(s, h, e))
  {
  }

  lemma SameRowsProgress(s: State, t: State)
    requires t.jobs == s.jobs && t.history == s.history
    ensures RowsProgress(s, t)
  {
  }

  lemma RefusalProgress(s: State, h: nat, e: HandlerStep)
    requires HandlerEnabled(s, h, e) && (e.FinishRefused? || e.FinishRefusedError?) && forall id :: id in s.jobs ==> id in s.history
    ensures RowsProgress(s, HandlerNext(s, h, e))
  {
    TerminalProgress(s, s.handlers[h].id, QUEUE_FULL);
  }

  lemma HandlerProgress(s: State, h: nat, e: HandlerStep)
    requires HandlerEnabled(s, h, e) && forall id :: id in s.jobs ==> id in s.history
    ensures RowsProgress(s, HandlerNext(s, h, e))
  {
    match e
    case Create(_, _, _) => CreateProgress(s, h, e);
    case FinishRefused => RefusalProgress(s, h, e);
    case FinishRefusedError(_) => RefusalProgress(s, h, e);
    case _ => SameRowsProgress(s, HandlerNext(s, h, e));
  }

  lemma ClaimProgress(s: State, w: nat, e: WorkerStep)
    requires WorkerEnabled(s, w, e) && (e.Claim? || e.ClaimError?) && forall id :: id in s.jobs ==> id in s.history
    ensures RowsProgress(s, WorkerNext(s, w, e))
  {
    RunningProgress(s, s.workers[w].id);
  }

  lemma FinishProgress(s: State, w: nat, e: WorkerStep)
    requires WorkerEnabled(s, w, e) && (e.FinishOutcome? || e.FinishOutcomeError?) && forall id :: id in s.jobs ==> id in s.history
    ensures RowsProgress(s, WorkerNext(s, w, e))
  {
    TerminalProgress(s, s.workers[w].id, s.workers[w].outcome);
  }

  lemma WorkerProgress(s: State, w: nat, e: WorkerStep)
    requires WorkerEnabled(s, w, e) && forall id :: id in s.jobs ==> id in s.history
    ensures RowsProgress(s, WorkerNext(s, w, e))
  {
    match e
    case Claim => ClaimProgress(s, w, e);
    case ClaimError(_) => ClaimProgress(s, w, e);
    case FinishOutcome => FinishProgress(s, w, e);
    case FinishOutcomeError(_) => FinishProgress(s, w, e);
    case _ => SameRowsProgress(s, WorkerNext(s, w, e));
  }

  lemma DeletionProgress(s: State, d: nat, e: DeleterStep)
    requires DeleterEnabled(s, d, e)
    ensures RowsProgress(s, DeleterNext(s, d, e))
  {
  }

  lemma SweepProgress(s: State, e: SweeperStep)
    requires SweeperEnabled(s, e)
    ensures RowsProgress(s, SweeperNext(s, e))
  {
  }

  lemma HidingProgress(s: State, id: string, user: nat, hidden: bool)
    ensures RowsProgress(s, s.(jobs := WithHidden(s.jobs, id, user, hidden)))
  {
  }

  lemma RestartProgress(s: State)
    requires forall id :: id in s.jobs ==> id in s.history
    ensures RowsProgress(s, Restarted(s))
  {
  }

  lemma StepProgress(s: State, e: Step)
    requires RowsOk(s.jobs, s.history, s.now) && Enabled(s, e)
    ensures RowsProgress(s, Next(s, e))
  {
    match e
    case OfHandler(h, step) => HandlerProgress(s, h, step);
    case OfWorker(w, step) => WorkerProgress(s, w, step);
    case OfDeleter(d, step) => DeletionProgress(s, d, step);
    case OfSweeper(step) => SweepProgress(s, step);
    case Hide(id, user, hidden) => HidingProgress(s, id, user, hidden);
    case Restart => RestartProgress(s);
    case _ => SameRowsProgress(s, Next(s, e));
  }

  lemma {:induction false} HistoryOnlyGrows(s: State, steps: seq<Step>, id: string)
    requires Sound(s) && ValidRun(s, steps) && id in s.history
    ensures id in After(s, steps).history && s.history[id] <= After(s, steps).history[id]
    decreases steps
  {
    if steps != [] {
      SoundKept(s, steps[0]);
      StepProgress(s, steps[0]);
      HistoryOnlyGrows(Next(s, steps[0]), steps[1..], id);
    }
  }

  lemma ClaimIsWritten(s: State, w: nat, e: WorkerStep, id: string)
    requires RowsOk(s.jobs, s.history, s.now) && WorkerEnabled(s, w, e) && ClaimsAt(s, w, e, id)
    ensures !WasClaimed(s.history, id) && WasClaimed(WorkerNext(s, w, e).history, id)
  {
    assert WorkerNext(s, w, e).history == Log(s.history, id, RunningName);
  }

  lemma StaysClaimed(s: State, t: State, id: string)
    requires RowsProgress(s, t) && RowsOk(t.jobs, t.history, t.now) && WasClaimed(s.history, id)
    requires RowsOk(s.jobs, s.history, s.now)
    ensures WasClaimed(t.history, id)
  {
  }

  /**
   * A second delivery of a job that is being worked on is refused by the claim: the worker lets go of the id, and
   * nothing else changes.
   */
  lemma DuplicateIsRefused(s: State, driver: nat, w: nat)
    requires Sound(s) && driver < |s.workers| && Driving(s.workers[driver])
    requires WorkerEnabled(s, w, Claim) && s.workers[w].id == s.workers[driver].id
    ensures WorkerNext(s, w, Claim) == Move(s, w, Idle)
  {
    WriteRunningGrows(s, s.workers[w].id);
    assert WasClaimed(s.history, s.workers[driver].id);
  }

  lemma {:induction false} ClaimsAreBounded(s: State, steps: seq<Step>, id: string)
    requires Sound(s) && ValidRun(s, steps)
    ensures ClaimCount(s, steps, id) <= if WasClaimed(s.history, id) then 0 else 1
    decreases steps
  {
    if steps != [] {
      SoundKept(s, steps[0]);
      StepProgress(s, steps[0]);
      if Claims(s, steps[0], id) {
        ClaimIsWritten(s, steps[0].w, steps[0].worker, id);
      } else if WasClaimed(s.history, id) {
        StaysClaimed(s, Next(s, steps[0]), id);
      }
      ClaimsAreBounded(Next(s, steps[0]), steps[1..], id);
    }
  }

  /**
   * However often an id is delivered, whatever is deleted, and however often the process restarts: a job is claimed at
   * most once, because the claim's own condition sees the first one.
   */
  lemma ClaimedAtMostOnce(s0: State, steps: seq<Step>, id: string)
    requires Initial(s0) && ValidRun(s0, steps)
    ensures ClaimCount(s0, steps, id) <= 1
  {
    InitialIsSafe(s0);
    ClaimsAreBounded(s0, steps, id);
  }

  function AssetKeys(assets: Assets, id: string): set<nat> {
    set a | a in assets && assets[a].jobId == id
  }

  lemma FewAssets(assets: Assets, jobs: Jobs, history: Histories, id: string)
    requires AssetsOk(assets, jobs, history)
    ensures |AssetKeys(assets, id)| == if HasAsset(assets, id) then 1 else 0
  {
    if HasAsset(assets, id) {
      var a :| a in assets && assets[a].jobId == id;
      assert AssetKeys(assets, id) == {a};
    } else {
      assert AssetKeys(assets, id) == {};
    }
  }

  /** Also with ids delivered twice, a job never has two asset rows, and a succeeded one has exactly one. */
  lemma OneAssetPerJob(s0: State, steps: seq<Step>, id: string)
    requires Initial(s0) && ValidRun(s0, steps)
    ensures var s := After(s0, steps);
      && |AssetKeys(s.assets, id)| <= 1
      && (id in s.jobs && s.jobs[id].status.SucceededName? ==> |AssetKeys(s.assets, id)| == 1)
      && (id !in s.jobs ==> AssetKeys(s.assets, id) == {})
  {
    Reaches(s0, steps);
    FewAssets(After(s0, steps).assets, After(s0, steps).jobs, After(s0, steps).history, id);
  }

  // ---------------------------------------------------------------- media is kept

  /**
   * In every reachable state, mid-sweep, mid-delete and after a crash, an asset row whose blob
   * is gone belongs to a job created more than the retention window ago; with retention switched off there is none.
   */
  lemma LiveMediaIsKept(s0: State, steps: seq<Step>, a: nat)
    requires Initial(s0) && ValidRun(s0, steps)
    requires var s := After(s0, steps); a in s.assets && s.assets[a].path !in s.blobs
    ensures var s := After(s0, steps);
      s.assets[a].jobId in s.jobs && s.retention > 0 && s.jobs[s.assets[a].jobId].createdAt + s.retention < s.now
  {
    Reaches(s0, steps);
  }

  // ---------------------------------------------------------------- row lifecycle

  /** Every stored row is consistent and its history is a legal lifecycle ending in its status. */
  lemma RowsFollowTheLifecycle(s0: State, steps: seq<Step>, id: string)
    requires Initial(s0) && ValidRun(s0, steps) && id in After(s0, steps).jobs
    ensures var s := After(s0, steps);
      && id in s.history && RowFits(s.jobs[id], s.history[id], s.now)
      && NameOf(StatusOf(s.jobs[id])) == s.jobs[id].status
  {
    Reaches(s0, steps);
    var row := After(s0, steps).jobs[id];
    NameReadsBack(row.status, row.errorCode, row.errorMessage);
  }

  lemma TerminalStays(s: State, e: Step, id: string)
    requires RowsOk(s.jobs, s.history, s.now) && Enabled(s, e) && id in s.jobs && Terminal(s.jobs[id].status)
    ensures var t := Next(s, e);
      id in t.history && (id in t.jobs ==> SameButHidden(s.jobs[id], t.jobs[id]) && Terminal(t.jobs[id].status))
  {
    StepProgress(s, e);
  }

  lemma SameButHiddenChains(a: Row, b: Row, c: Row)
    requires SameButHidden(a, b) && SameButHidden(b, c)
    ensures SameButHidden(a, c)
  {
  }

  /**
   * A terminal row never changes status, error columns or timestamps again, and keeps its owner and type: as long as
   * it exists, `hidden` is the only thing about it that may change.
   */
  lemma {:induction false} TerminalIsFinal(s: State, steps: seq<Step>, id: string)
    requires Sound(s) && ValidRun(s, steps) && id in s.jobs && Terminal(s.jobs[id].status)
    ensures id in After(s, steps).jobs ==> SameButHidden(s.jobs[id], After(s, steps).jobs[id])
    decreases steps
  {
    if steps != [] {
      var t := Next(s, steps[0]);
      SoundKept(s, steps[0]);
      TerminalStays(s, steps[0], id);
      if id in t.jobs {
        TerminalIsFinal(t, steps[1..], id);
        if id in After(s, steps).jobs {
          SameButHiddenChains(s.jobs[id], t.jobs[id], After(t, steps[1..]).jobs[id]);
        }
      } else {
        GoneIsGone(t, steps[1..], id);
      }
    }
  }

  lemma {:induction false} GoneIsGone(s: State, steps: seq<Step>, id: string)
    requires Sound(s) && ValidRun(s, steps) && id in s.history && id !in s.jobs
    ensures id !in After(s, steps).jobs
    decreases steps
  {
    if steps != [] {
      SoundKept(s, steps[0]);
      StepProgress(s, steps[0]);
      GoneIsGone(Next(s, steps[0]), steps[1..], id);
    }
  }
}
