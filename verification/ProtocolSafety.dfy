/**
 * What every step of the protocol keeps: rows in order, at most one holder per
 * job, and no unfinished job without one.
 */
module ProtocolSafety {
  import opened Basics
  import opened JobStatuses
  import opened Tables
  import opened BlobPaths
  import opened Protocol

  // ---------------------------------------------------------------- rows

  function Last(h: seq<StatusName>): StatusName
    requires h != []
  {
    h[|h| - 1]
  }

  /** A prefix of queued, running, succeeded or failed; or queued, failed. */
  predicate Legal(h: seq<StatusName>) {
    && 1 <= |h| <= 3
    && h[0].QueuedName?
    && (|h| == 2 ==> h[1].RunningName? || h[1].FailedName?)
    && (|h| == 3 ==> h[1].RunningName? && (h[2].SucceededName? || h[2].FailedName?))
  }

  /** A row agrees with the last status written to it, and its timeline is in order. */
  predicate RowFits(row: Row, h: seq<StatusName>, now: int) {
    Legal(h) && Last(h) == row.status && RowOk(row, now)
  }

  ghost predicate RowsOk(jobs: Jobs, history: map<string, seq<StatusName>>, now: int) {
    && (forall id :: id in history ==> Legal(history[id]))
    && (forall id :: id in jobs ==> id in history && RowFits(jobs[id], history[id], now))
  }

  // ---------------------------------------------------------------- holders

  /** Where the id of an unfinished job can be. */
  datatype Holder = AtHandler(h: nat) | AtSlot(i: nat) | AtWorker(w: nat)

  function HolderId(s: State, p: Holder): Option<string> {
    match p
    case AtHandler(h) => if h in s.handlers then Some(s.handlers[h].id) else None
    case AtSlot(i) => if i < |s.channel| then Some(s.channel[i]) else None
    case AtWorker(w) => if w < |s.workers| && !s.workers[w].Idle? then Some(s.workers[w].id) else None
  }

  /** How far a worker has brought its job, as a rank of statuses. */
  function WorkerStage(worker: Worker): nat {
    if worker.Received? then 0 else if worker.Reporting? then 2 else 1
  }

  ghost predicate Shape(s: State) {
    && |s.channel| <= QUEUE_CAPACITY
    && |s.workers| == (if s.up then WORKER_COUNT else 0)
    && (!s.up ==> s.channel == [] && s.handlers == map[] && s.deleters == map[] && s.sweeper == Resting && s.sent == [])
  }

  /** A job's status rank in its history; the history outlives the row. */
  ghost predicate AtRank(s: State, id: string, rank: nat) {
    id in s.history && s.history[id] != [] && Rank(Last(s.history[id])) == rank
  }

  /** Every id in memory is known, not lost, and as far along as its holder says. */
  ghost predicate ActorsOk(s: State) {
    && (forall h :: h in s.handlers ==> AtRank(s, s.handlers[h].id, 0) && s.handlers[h].id !in s.lost)
    && (forall i: nat :: i < |s.channel| ==> AtRank(s, s.channel[i], 0) && s.channel[i] !in s.lost)
    && (forall w: nat :: w < |s.workers| && !s.workers[w].Idle? ==>
          && AtRank(s, s.workers[w].id, WorkerStage(s.workers[w])) && s.workers[w].id !in s.lost
          && (s.workers[w].Finishing? || s.workers[w].Reporting? ==>
                s.workers[w].outcome.Succeeded? || s.workers[w].outcome.Failed?))
    && (forall id :: id in s.lost ==> id in s.history)
  }

  type Histories = map<string, seq<StatusName>>

  ghost predicate WasClaimed(history: Histories, id: string) {
    id in history && |history[id]| >= 2 && history[id][1].RunningName?
  }

  /** A worker that has claimed its job. */
  predicate Driving(worker: Worker) { !worker.Idle? && !worker.Received? }

  /**
   * What holds of the actors even when ids are delivered twice: every id in memory is known, a worker past
   * `Received` holds a claimed job, and no two such workers hold the same one.
   */
  ghost predicate CrewOk(s: State) {
    && (forall h :: h in s.handlers ==> s.handlers[h].id in s.history)
    && (forall i: nat :: i < |s.channel| ==> s.channel[i] in s.history)
    && (forall w: nat :: w < |s.workers| && !s.workers[w].Idle? ==> s.workers[w].id in s.history)
    && (forall w: nat :: w < |s.workers| && Driving(s.workers[w]) ==>
          && WasClaimed(s.history, s.workers[w].id)
          && (s.workers[w].Finishing? || s.workers[w].Reporting? ==>
                s.workers[w].outcome.Succeeded? || s.workers[w].outcome.Failed?))
    && (forall v: nat, w: nat :: v < w < |s.workers| && Driving(s.workers[v]) && Driving(s.workers[w]) ==>
          s.workers[v].id != s.workers[w].id)
  }

  /** Kept by every step, also when ids are delivered twice. */
  ghost predicate Sound(s: State) { Shape(s) && RowsOk(s.jobs, s.history, s.now) && CrewOk(s) }

  ghost predicate Unique(s: State) {
    forall p, q :: HolderId(s, p).Some? && HolderId(s, p) == HolderId(s, q) ==> p == q
  }

  ghost predicate Held(s: State, id: string) { exists p :: HolderId(s, p) == Some(id) }

  predicate Unfinished(s: State, id: string) { id in s.jobs && Active(s.jobs[id]) }

  ghost predicate NoneStranded(s: State) {
    s.up ==> forall id :: Unfinished(s, id) && id !in s.lost ==> Held(s, id)
  }

  /** Kept while no id is delivered twice. */
  ghost predicate Safe(s: State) { Sound(s) && ActorsOk(s) && Unique(s) && NoneStranded(s) }

  // ---------------------------------------------------------------- rows are kept in order

  lemma HandlerKeepsShape(s: State, h: nat, e: HandlerStep)
    requires Shape(s) && s.up && HandlerEnabled(s, h, e)
    ensures Shape(HandlerNext(s, h, e))
  {
  }

  lemma WorkerKeepsShape(s: State, w: nat, e: WorkerStep)
    requires Shape(s) && s.up && WorkerEnabled(s, w, e)
    ensures Shape(WorkerNext(s, w, e))
  {
  }

  lemma CleanersKeepShape(s: State, d: nat, e: DeleterStep, f: SweeperStep)
    requires Shape(s) && s.up
    ensures DeleterEnabled(s, d, e) ==> Shape(DeleterNext(s, d, e))
    ensures SweeperEnabled(s, f) ==> Shape(SweeperNext(s, f))
  {
  }

  lemma ShapeKept(s: State, e: Step)
    requires Shape(s) && Enabled(s, e)
    ensures Shape(Next(s, e))
  {
    match e
    case OfHandler(h, step) => HandlerKeepsShape(s, h, step);
    case OfWorker(w, step) => WorkerKeepsShape(s, w, step);
    case OfDeleter(d, step) => CleanersKeepShape(s, d, step, ReadExpired);
    case OfSweeper(step) => CleanersKeepShape(s, 0, EndDelete, step);
    case _ =>
  }

  lemma StartFits(row: Row, h: seq<StatusName>, now: int)
    requires RowFits(row, h, now) && row.status.QueuedName?
    ensures RowFits(StartedRow(row, now), h + [RunningName], now)
  {
  }

  lemma FinishFits(row: Row, h: seq<StatusName>, status: JobStatus, now: int)
    requires RowFits(row, h, now) && Active(row)
    requires status.Failed? || (status.Succeeded? && row.status.RunningName?)
    ensures RowFits(FinishedRow(row, status, now), h + [NameOf(status)], now)
  {
  }

  lemma RunningKeepsRows(s: State, id: string)
    requires RowsOk(s.jobs, s.history, s.now)
    ensures var t := WriteRunning(s, id); RowsOk(t.jobs, t.history, t.now)
  {
    if Claimable(s.jobs, id) {
      StartFits(s.jobs[id], s.history[id], s.now);
    }
  }

  lemma TerminalKeepsRows(s: State, id: string, status: JobStatus)
    requires RowsOk(s.jobs, s.history, s.now) && (status.Failed? || (status.Succeeded? && !Claimable(s.jobs, id)))
    ensures var t := WriteTerminal(s, id, status); RowsOk(t.jobs, t.history, t.now)
  {
    if Finishable(s.jobs, id) {
      FinishFits(s.jobs[id], s.history[id], status, s.now);
    }
  }

  lemma OrphansKeepRows(jobs: Jobs, history: map<string, seq<StatusName>>, status: JobStatus, now: int)
    requires RowsOk(jobs, history, now) && status.Failed?
    ensures RowsOk(FailOrphans(jobs, status, now), FailHistory(jobs, history), now)
  {
    forall id | id in jobs && Active(jobs[id])
      ensures RowFits(FinishedRow(jobs[id], status, now), history[id] + [FailedName], now)
    {
      FinishFits(jobs[id], history[id], status, now);
    }
  }

  lemma HandlerKeepsRows(s: State, h: nat, e: HandlerStep)
    requires RowsOk(s.jobs, s.history, s.now) && HandlerEnabled(s, h, e)
    ensures var t := HandlerNext(s, h, e); RowsOk(t.jobs, t.history, t.now)
  {
    if h in s.handlers {
      TerminalKeepsRows(s, s.handlers[h].id, QUEUE_FULL);
    }
  }

  lemma WorkerKeepsRows(s: State, w: nat, e: WorkerStep)
    requires RowsOk(s.jobs, s.history, s.now) && CrewOk(s) && WorkerEnabled(s, w, e)
    ensures var t := WorkerNext(s, w, e); RowsOk(t.jobs, t.history, t.now)
  {
    var me := s.workers[w];
    assert Driving(me) ==> WasClaimed(s.history, me.id);
    if me.Received? {
      RunningKeepsRows(s, me.id);
    } else if me.Finishing? {
      TerminalKeepsRows(s, me.id, me.outcome);
    }
  }

  lemma DeletionKeepsRows(s: State, d: nat, e: DeleterStep)
    requires RowsOk(s.jobs, s.history, s.now) && DeleterEnabled(s, d, e)
    ensures var t := DeleterNext(s, d, e); RowsOk(t.jobs, t.history, t.now)
  {
  }

  lemma SweepKeepsRows(s: State, e: SweeperStep)
    requires RowsOk(s.jobs, s.history, s.now) && SweeperEnabled(s, e)
    ensures var t := SweeperNext(s, e); RowsOk(t.jobs, t.history, t.now)
  {
  }

  lemma HidingKeepsRows(s: State, id: string, user: nat, hidden: bool)
    requires RowsOk(s.jobs, s.history, s.now)
    ensures RowsOk(WithHidden(s.jobs, id, user, hidden), s.history, s.now)
  {
  }

  lemma RowsKept(s: State, e: Step)
    requires RowsOk(s.jobs, s.history, s.now) && CrewOk(s) && Enabled(s, e)
    ensures var t := Next(s, e); RowsOk(t.jobs, t.history, t.now)
  {
    match e
    case Tick(_) =>
    case OfHandler(h, step) => HandlerKeepsRows(s, h, step);
    case OfWorker(w, step) => WorkerKeepsRows(s, w, step);
    case OfDeleter(d, step) => DeletionKeepsRows(s, d, step);
    case OfSweeper(step) => SweepKeepsRows(s, step);
    case Hide(id, user, hidden) => HidingKeepsRows(s, id, user, hidden);
    case Redeliver(_) =>
    case Crash =>
    case Restart => OrphansKeepRows(s.jobs, s.history, INTERRUPTED, s.now);
  }

  // ---------------------------------------------------------------- one driving worker per job

  /** Known ids stay known, and claimed ones claimed. */
  ghost predicate HistoryGrows(s: Histories, t: Histories) {
    forall id :: id in s ==> id in t && (WasClaimed(s, id) ==> WasClaimed(t, id))
  }

  /** Worker `w` becomes `x`, which drives a job only if it did before or has just claimed it. */
  ghost predicate CrewEffect(s: State, t: State, w: nat, x: Worker) {
    && w < |s.workers| && t.workers == s.workers[w := x] && t.handlers == s.handlers
    && (t.channel == s.channel || (s.channel != [] && t.channel == s.channel[1..]))
    && HistoryGrows(s.history, t.history)
    && (!x.Idle? ==> x.id in t.history)
    && (Driving(x) ==>
          && WasClaimed(t.history, x.id)
          && (if Driving(s.workers[w]) then x.id == s.workers[w].id else !WasClaimed(s.history, x.id))
          && (x.Finishing? || x.Reporting? ==> x.outcome.Succeeded? || x.outcome.Failed?))
  }

  lemma CrewEffectKeepsCrew(s: State, t: State, w: nat, x: Worker)
    requires CrewOk(s) && CrewEffect(s, t, w, x)
    ensures CrewOk(t)
  {
  }

  lemma WriteRunningGrows(s: State, id: string)
    requires RowsOk(s.jobs, s.history, s.now)
    ensures var t := WriteRunning(s, id);
      HistoryGrows(s.history, t.history)
      && (Claimable(s.jobs, id) ==> !WasClaimed(s.history, id) && WasClaimed(t.history, id))
  {
  }

  lemma WriteTerminalGrows(s: State, id: string, status: JobStatus)
    requires status.Succeeded? || status.Failed?
    ensures HistoryGrows(s.history, WriteTerminal(s, id, status).history)
  {
  }

  lemma ClaimMovesCrew(s: State, w: nat, e: WorkerStep)
    requires RowsOk(s.jobs, s.history, s.now) && CrewOk(s) && WorkerEnabled(s, w, e) && (e.Claim? || e.ClaimError?)
    ensures var t := WorkerNext(s, w, e); CrewEffect(s, t, w, t.workers[w])
  {
    WriteRunningGrows(s, s.workers[w].id);
  }

  lemma FinishMovesCrew(s: State, w: nat, e: WorkerStep)
    requires CrewOk(s) && WorkerEnabled(s, w, e) && (e.FinishOutcome? || e.FinishOutcomeError?)
    ensures var t := WorkerNext(s, w, e); CrewEffect(s, t, w, t.workers[w])
  {
    assert Driving(s.workers[w]);
    WriteTerminalGrows(s, s.workers[w].id, s.workers[w].outcome);
  }

  lemma ReceiveMovesCrew(s: State, w: nat)
    requires CrewOk(s) && WorkerEnabled(s, w, Receive)
    ensures CrewEffect(s, WorkerNext(s, w, Receive), w, Received(s.channel[0]))
  {
  }

  lemma DrivingMovesCrew(s: State, w: nat, e: WorkerStep)
    requires CrewOk(s) && WorkerEnabled(s, w, e) && !WritesStatus(e) && !e.Receive?
    ensures var t := WorkerNext(s, w, e); CrewEffect(s, t, w, t.workers[w])
  {
    assert Driving(s.workers[w]);
  }

  lemma WorkerMovesCrew(s: State, w: nat, e: WorkerStep)
    requires RowsOk(s.jobs, s.history, s.now) && CrewOk(s) && WorkerEnabled(s, w, e)
    ensures var t := WorkerNext(s, w, e); CrewEffect(s, t, w, t.workers[w])
  {
    match e
    case Claim => ClaimMovesCrew(s, w, e);
    case ClaimError(_) => ClaimMovesCrew(s, w, e);
    case FinishOutcome => FinishMovesCrew(s, w, e);
    case FinishOutcomeError(_) => FinishMovesCrew(s, w, e);
    case Receive => ReceiveMovesCrew(s, w);
    case _ => DrivingMovesCrew(s, w, e);
  }

  lemma WorkerKeepsCrew(s: State, w: nat, e: WorkerStep)
    requires RowsOk(s.jobs, s.history, s.now) && CrewOk(s) && WorkerEnabled(s, w, e)
    ensures CrewOk(WorkerNext(s, w, e))
  {
    WorkerMovesCrew(s, w, e);
    CrewEffectKeepsCrew(s, WorkerNext(s, w, e), w, WorkerNext(s, w, e).workers[w]);
  }

  /** The workers stay; ids that come into memory are known. */
  ghost predicate CrewUnmoved(s: State, t: State) {
    && t.workers == s.workers && HistoryGrows(s.history, t.history)
    && (forall h :: h in t.handlers ==> t.handlers[h].id in t.history)
    && (forall i: nat :: i < |t.channel| ==> t.channel[i] in t.history)
  }

  lemma UnmovedKeepsCrew(s: State, t: State)
    requires CrewOk(s) && CrewUnmoved(s, t)
    ensures CrewOk(t)
  {
  }

  lemma HandlerKeepsCrew(s: State, h: nat, e: HandlerStep)
    requires CrewOk(s) && HandlerEnabled(s, h, e)
    ensures CrewOk(HandlerNext(s, h, e))
  {
    if h in s.handlers {
      WriteTerminalGrows(s, s.handlers[h].id, QUEUE_FULL);
    }
    UnmovedKeepsCrew(s, HandlerNext(s, h, e));
  }

  lemma CleanersKeepCrew(s: State, d: nat, e: DeleterStep, f: SweeperStep)
    requires CrewOk(s)
    ensures DeleterEnabled(s, d, e) ==> CrewOk(DeleterNext(s, d, e))
    ensures SweeperEnabled(s, f) ==> CrewOk(SweeperNext(s, f))
  {
    if DeleterEnabled(s, d, e) { UnmovedKeepsCrew(s, DeleterNext(s, d, e)); }
    if SweeperEnabled(s, f) { UnmovedKeepsCrew(s, SweeperNext(s, f)); }
  }

  lemma CrewKept(s: State, e: Step)
    requires Sound(s) && Enabled(s, e)
    ensures CrewOk(Next(s, e))
  {
    match e
    case OfHandler(h, step) => HandlerKeepsCrew(s, h, step);
    case OfWorker(w, step) => WorkerKeepsCrew(s, w, step);
    case OfDeleter(d, step) => CleanersKeepCrew(s, d, step, ReadExpired);
    case OfSweeper(step) => CleanersKeepCrew(s, 0, EndDelete, step);
    case Crash =>
    case Restart => assert forall w: nat :: w < WORKER_COUNT ==> Restarted(s).workers[w].Idle?;
    case _ => UnmovedKeepsCrew(s, Next(s, e));
  }

  lemma SoundKept(s: State, e: Step)
    requires Sound(s) && Enabled(s, e)
    ensures Sound(Next(s, e))
  {
    ShapeKept(s, e);
    RowsKept(s, e);
    CrewKept(s, e);
  }

  // ---------------------------------------------------------------- holders keep pace with their rows

  /** No other holder has the id that `p` holds. */
  lemma OthersDiffer(s: State, p: Holder)
    requires Unique(s) && HolderId(s, p).Some?
    ensures forall h :: h in s.handlers && AtHandler(h) != p ==> s.handlers[h].id != HolderId(s, p).value
    ensures forall i: nat :: i < |s.channel| && AtSlot(i) != p ==> s.channel[i] != HolderId(s, p).value
    ensures forall w: nat :: w < |s.workers| && !s.workers[w].Idle? && AtWorker(w) != p ==>
      s.workers[w].id != HolderId(s, p).value
  {
    forall h | h in s.handlers && AtHandler(h) != p ensures s.handlers[h].id != HolderId(s, p).value {
      assert HolderId(s, AtHandler(h)).Some?;
    }
    forall i: nat | i < |s.channel| && AtSlot(i) != p ensures s.channel[i] != HolderId(s, p).value {
      assert HolderId(s, AtSlot(i)).Some?;
    }
    forall w: nat | w < |s.workers| && !s.workers[w].Idle? && AtWorker(w) != p
      ensures s.workers[w].id != HolderId(s, p).value
    {
      assert HolderId(s, AtWorker(w)).Some?;
    }
  }

  /** Only the history and the row of `id` may differ, and no other row becomes unfinished. */
  ghost predicate OnlyTouches(s: State, t: State, id: string) {
    && id in t.history
    && (forall j :: j in s.history && j != id ==> j in t.history && t.history[j] == s.history[j])
    && (forall j :: j in t.jobs && j != id ==> j in s.jobs && s.jobs[j] == t.jobs[j])
  }

  /** The job a worker step is about. */
  function ActingId(s: State, w: nat): string
    requires w < |s.workers| && (s.workers[w].Idle? ==> s.channel != [])
  {
    if s.workers[w].Idle? then s.channel[0] else s.workers[w].id
  }

  /** What any worker step does to the holders: worker `w` becomes `x`, still at its job's stage or let go of. */
  ghost predicate WorkerEffect(s: State, t: State, w: nat, x: Worker) {
    && w < |s.workers| && (s.workers[w].Idle? ==> s.channel != [])
    && t.workers == s.workers[w := x] && t.handlers == s.handlers && t.up == s.up
    && t.channel == (if s.workers[w].Idle? then s.channel[1..] else s.channel)
    && var id := ActingId(s, w);
    && OnlyTouches(s, t, id)
    && (x.Idle? ==> t.lost == s.lost + {id} || (t.lost == s.lost && !Unfinished(t, id)))
    && (!x.Idle? ==>
          && t.lost == s.lost && x.id == id && AtRank(t, id, WorkerStage(x))
          && (x.Finishing? || x.Reporting? ==> x.outcome.Succeeded? || x.outcome.Failed?))
  }

  lemma WriteRunningTouches(s: State, id: string)
    requires RowsOk(s.jobs, s.history, s.now) && AtRank(s, id, 0)
    ensures var t := WriteRunning(s, id);
      OnlyTouches(s, t, id) && if Claimable(s.jobs, id) then AtRank(t, id, 1) else !Unfinished(t, id)
  {
  }

  lemma WriteTerminalTouches(s: State, id: string, status: JobStatus)
    requires id in s.history && (status.Succeeded? || status.Failed?)
    ensures var t := WriteTerminal(s, id, status);
      OnlyTouches(s, t, id) && !Unfinished(t, id) && (Finishable(s.jobs, id) ==> AtRank(t, id, 2))
  {
  }

  lemma ClaimHasEffect(s: State, w: nat)
    requires RowsOk(s.jobs, s.history, s.now) && ActorsOk(s) && WorkerEnabled(s, w, Claim)
    ensures var t := WorkerNext(s, w, Claim); WorkerEffect(s, t, w, t.workers[w])
  {
    WriteRunningTouches(s, s.workers[w].id);
  }

  lemma ClaimErrorHasEffect(s: State, w: nat, applied: bool)
    requires RowsOk(s.jobs, s.history, s.now) && ActorsOk(s) && WorkerEnabled(s, w, ClaimError(applied))
    ensures WorkerEffect(s, WorkerNext(s, w, ClaimError(applied)), w, Idle)
  {
    WriteRunningTouches(s, s.workers[w].id);
  }

  lemma FinishHasEffect(s: State, w: nat)
    requires ActorsOk(s) && WorkerEnabled(s, w, FinishOutcome)
    ensures var t := WorkerNext(s, w, FinishOutcome); WorkerEffect(s, t, w, t.workers[w])
  {
    WriteTerminalTouches(s, s.workers[w].id, s.workers[w].outcome);
  }

  lemma FinishErrorHasEffect(s: State, w: nat, applied: bool)
    requires ActorsOk(s) && WorkerEnabled(s, w, FinishOutcomeError(applied))
    ensures WorkerEffect(s, WorkerNext(s, w, FinishOutcomeError(applied)), w, Idle)
  {
    WriteTerminalTouches(s, s.workers[w].id, s.workers[w].outcome);
  }

  predicate WritesStatus(e: WorkerStep) {
    e.Claim? || e.ClaimError? || e.FinishOutcome? || e.FinishOutcomeError?
  }

  predicate Stores(e: WorkerStep) {
    e.Upload? || e.UploadError? || e.InsertAsset? || e.InsertAssetError?
  }

  lemma UploadHasEffect(s: State, w: nat, e: WorkerStep)
    requires ActorsOk(s) && WorkerEnabled(s, w, e) && (e.Upload? || e.UploadError?)
    ensures var t := WorkerNext(s, w, e); WorkerEffect(s, t, w, t.workers[w])
  {
    assert AtRank(s, s.workers[w].id, 1);
  }

  lemma InsertHasEffect(s: State, w: nat, e: WorkerStep)
    requires ActorsOk(s) && WorkerEnabled(s, w, e) && (e.InsertAsset? || e.InsertAssetError?)
    ensures var t := WorkerNext(s, w, e); WorkerEffect(s, t, w, t.workers[w])
  {
    assert AtRank(s, s.workers[w].id, 1);
  }

  lemma ReceiveHasEffect(s: State, w: nat)
    requires ActorsOk(s) && WorkerEnabled(s, w, Receive)
    ensures WorkerEffect(s, WorkerNext(s, w, Receive), w, Received(s.channel[0]))
  {
    assert AtRank(s, s.channel[0], 0);
  }

  lemma PublishHasEffect(s: State, w: nat, e: WorkerStep)
    requires RowsOk(s.jobs, s.history, s.now) && ActorsOk(s)
    requires WorkerEnabled(s, w, e) && (e.PublishRunning? || e.PublishOutcome?)
    ensures var t := WorkerNext(s, w, e); WorkerEffect(s, t, w, t.workers[w])
  {
    assert AtRank(s, s.workers[w].id, WorkerStage(s.workers[w]));
  }

  lemma GenerationHasEffect(s: State, w: nat, e: WorkerStep)
    requires ActorsOk(s) && WorkerEnabled(s, w, e) && (e.Generated? || e.GenerationFailed?)
    ensures var t := WorkerNext(s, w, e); WorkerEffect(s, t, w, t.workers[w])
  {
    assert AtRank(s, s.workers[w].id, 1);
  }

  lemma WorkerStepHasEffect(s: State, w: nat, e: WorkerStep)
    requires RowsOk(s.jobs, s.history, s.now) && ActorsOk(s) && WorkerEnabled(s, w, e)
    ensures var t := WorkerNext(s, w, e); WorkerEffect(s, t, w, t.workers[w])
  {
    match e
    case Claim => ClaimHasEffect(s, w);
    case ClaimError(applied) => ClaimErrorHasEffect(s, w, applied);
    case FinishOutcome => FinishHasEffect(s, w);
    case FinishOutcomeError(applied) => FinishErrorHasEffect(s, w, applied);
    case Receive => ReceiveHasEffect(s, w);
    case PublishRunning => PublishHasEffect(s, w, e);
    case PublishOutcome => PublishHasEffect(s, w, e);
    case Generated(_, _, _, _) => GenerationHasEffect(s, w, e);
    case GenerationFailed(_, _) => GenerationHasEffect(s, w, e);
    case Upload => UploadHasEffect(s, w, e);
    case UploadError(_) => UploadHasEffect(s, w, e);
    case _ => InsertHasEffect(s, w, e);
  }

  lemma WorkerEffectKeepsActors(s: State, t: State, w: nat, x: Worker)
    requires ActorsOk(s) && Unique(s) && WorkerEffect(s, t, w, x)
    ensures ActorsOk(t)
  {
    OthersDiffer(s, if s.workers[w].Idle? then AtSlot(0) else AtWorker(w));
  }

  /** Where the id now held by `p` was before worker `w` stepped. */
  function BeforeWorker(s: State, w: nat, p: Holder): Holder
    requires w < |s.workers|
  {
    if !s.workers[w].Idle? then p
    else match p
      case AtSlot(i) => AtSlot(i + 1)
      case AtWorker(v) => if v == w then AtSlot(0) else p
      case AtHandler(_) => p
  }

  lemma WorkerEffectTracesBack(s: State, t: State, w: nat, x: Worker, p: Holder)
    requires WorkerEffect(s, t, w, x) && HolderId(t, p).Some?
    ensures HolderId(s, BeforeWorker(s, w, p)) == HolderId(t, p)
  {
  }

  lemma WorkerEffectKeepsUnique(s: State, t: State, w: nat, x: Worker)
    requires Unique(s) && WorkerEffect(s, t, w, x)
    ensures Unique(t)
  {
    forall p, q | HolderId(t, p).Some? && HolderId(t, p) == HolderId(t, q) ensures p == q {
      WorkerEffectTracesBack(s, t, w, x, p);
      WorkerEffectTracesBack(s, t, w, x, q);
    }
  }

  lemma WorkerEffectStrandsNone(s: State, t: State, w: nat, x: Worker)
    requires NoneStranded(s) && WorkerEffect(s, t, w, x)
    ensures NoneStranded(t)
  {
    if t.up {
      var acting := ActingId(s, w);
      forall id | Unfinished(t, id) && id !in t.lost ensures Held(t, id) {
        if id == acting {
          assert HolderId(t, AtWorker(w)) == Some(id);
        } else {
          var p :| HolderId(s, p) == Some(id);
          var q := if p.AtSlot? && s.workers[w].Idle? then AtSlot(p.i - 1) else p;
          assert HolderId(t, q) == Some(id);
        }
      }
    }
  }

  lemma WorkerKeepsHolders(s: State, w: nat, e: WorkerStep)
    requires Safe(s) && WorkerEnabled(s, w, e)
    ensures var t := WorkerNext(s, w, e); ActorsOk(t) && Unique(t) && NoneStranded(t)
  {
    var t := WorkerNext(s, w, e);
    WorkerStepHasEffect(s, w, e);
    WorkerEffectKeepsActors(s, t, w, t.workers[w]);
    WorkerEffectKeepsUnique(s, t, w, t.workers[w]);
    WorkerEffectStrandsNone(s, t, w, t.workers[w]);
  }

  /** What any handler step does to the holders: handler `h` starts, moves its id on, or lets go of it. */
  ghost predicate HandlerEffect(s: State, t: State, h: nat, id: string) {
    && t.workers == s.workers && t.up == s.up
    && OnlyTouches(s, t, id)
    && (h in s.handlers ==> s.handlers[h].id == id)
    && (h !in s.handlers ==> id !in s.history && h in t.handlers)
    && (forall g :: g != h ==> (g in t.handlers <==> g in s.handlers))
    && (forall g :: g != h && g in s.handlers ==> t.handlers[g] == s.handlers[g])
    && (if h in t.handlers then
          t.channel == s.channel && t.lost == s.lost && t.handlers[h].id == id && AtRank(t, id, 0)
        else
          || (t.channel == s.channel + [id] && t.lost == s.lost && AtRank(t, id, 0))
          || (t.channel == s.channel && t.lost == s.lost + {id})
          || (t.channel == s.channel && t.lost == s.lost && !Unfinished(t, id)))
  }

  lemma CreateHasEffect(s: State, h: nat, e: HandlerStep)
    requires RowsOk(s.jobs, s.history, s.now) && HandlerEnabled(s, h, e) && e.Create?
    ensures HandlerEffect(s, HandlerNext(s, h, e), h, e.id)
  {
  }

  lemma EnqueueHasEffect(s: State, h: nat)
    requires ActorsOk(s) && HandlerEnabled(s, h, Enqueue)
    ensures HandlerEffect(s, HandlerNext(s, h, Enqueue), h, s.handlers[h].id)
  {
  }

  lemma CancelHasEffect(s: State, h: nat)
    requires ActorsOk(s) && HandlerEnabled(s, h, CancelHandler)
    ensures HandlerEffect(s, HandlerNext(s, h, CancelHandler), h, s.handlers[h].id)
  {
  }

  lemma FinishRefusedHasEffect(s: State, h: nat)
    requires ActorsOk(s) && HandlerEnabled(s, h, FinishRefused)
    ensures HandlerEffect(s, HandlerNext(s, h, FinishRefused), h, s.handlers[h].id)
  {
    WriteTerminalTouches(s, s.handlers[h].id, QUEUE_FULL);
  }

  lemma FinishRefusedErrorHasEffect(s: State, h: nat, applied: bool)
    requires ActorsOk(s) && HandlerEnabled(s, h, FinishRefusedError(applied))
    ensures HandlerEffect(s, HandlerNext(s, h, FinishRefusedError(applied)), h, s.handlers[h].id)
  {
    WriteTerminalTouches(s, s.handlers[h].id, QUEUE_FULL);
  }

  lemma HandlerStepHasEffect(s: State, h: nat, e: HandlerStep)
    requires RowsOk(s.jobs, s.history, s.now) && ActorsOk(s) && HandlerEnabled(s, h, e)
    ensures HandlerEffect(s, HandlerNext(s, h, e), h, if e.Create? then e.id else s.handlers[h].id)
  {
    match e
    case Create(_, _, _) => CreateHasEffect(s, h, e);
    case Enqueue => EnqueueHasEffect(s, h);
    case FinishRefused => FinishRefusedHasEffect(s, h);
    case FinishRefusedError(applied) => FinishRefusedErrorHasEffect(s, h, applied);
    case CancelHandler => CancelHasEffect(s, h);
  }

  lemma HandlerEffectKeepsActors(s: State, t: State, h: nat, id: string)
    requires ActorsOk(s) && Unique(s) && HandlerEffect(s, t, h, id)
    ensures ActorsOk(t)
  {
    if h in s.handlers {
      OthersDiffer(s, AtHandler(h));
    }
  }

  /** Where the id now held by `p` was before handler `h` stepped. */
  function BeforeHandler(s: State, t: State, h: nat, p: Holder): Holder {
    if |t.channel| > |s.channel| && p == AtSlot(|s.channel|) then AtHandler(h) else p
  }

  lemma HandlerEffectTracesBack(s: State, t: State, h: nat, id: string, p: Holder)
    requires HandlerEffect(s, t, h, id) && HolderId(t, p).Some? && (p == AtHandler(h) ==> h in s.handlers)
    requires |t.channel| > |s.channel| ==> h in s.handlers
    ensures HolderId(s, BeforeHandler(s, t, h, p)) == HolderId(t, p)
  {
  }

  /** A handler that starts brings an id nobody holds. */
  lemma NewIdIsHeldByNobody(s: State, p: Holder)
    requires ActorsOk(s) && HolderId(s, p).Some?
    ensures HolderId(s, p).value in s.history
  {
  }

  lemma HandlerEffectKeepsUnique(s: State, t: State, h: nat, id: string)
    requires ActorsOk(s) && Unique(s) && HandlerEffect(s, t, h, id)
    ensures Unique(t)
  {
    forall p, q | HolderId(t, p).Some? && HolderId(t, p) == HolderId(t, q) ensures p == q {
      if h in s.handlers {
        HandlerEffectTracesBack(s, t, h, id, p);
        HandlerEffectTracesBack(s, t, h, id, q);
      } else {
        if p != AtHandler(h) { HandlerEffectTracesBack(s, t, h, id, p); NewIdIsHeldByNobody(s, p); }
        if q != AtHandler(h) { HandlerEffectTracesBack(s, t, h, id, q); NewIdIsHeldByNobody(s, q); }
      }
    }
  }

  lemma HandlerEffectStrandsNone(s: State, t: State, h: nat, id: string)
    requires NoneStranded(s) && HandlerEffect(s, t, h, id)
    ensures NoneStranded(t)
  {
    if t.up {
      forall j | Unfinished(t, j) && j !in t.lost ensures Held(t, j) {
        if j == id {
          assert HolderId(t, if h in t.handlers then AtHandler(h) else AtSlot(|s.channel|)) == Some(id);
        } else {
          var p :| HolderId(s, p) == Some(j);
          assert HolderId(t, p) == Some(j);
        }
      }
    }
  }

  lemma HandlerKeepsHolders(s: State, h: nat, e: HandlerStep)
    requires Safe(s) && HandlerEnabled(s, h, e)
    ensures var t := HandlerNext(s, h, e); ActorsOk(t) && Unique(t) && NoneStranded(t)
  {
    var t := HandlerNext(s, h, e);
    var id := if e.Create? then e.id else s.handlers[h].id;
    HandlerStepHasEffect(s, h, e);
    HandlerEffectKeepsActors(s, t, h, id);
    HandlerEffectKeepsUnique(s, t, h, id);
    HandlerEffectStrandsNone(s, t, h, id);
  }

  /** Steps that touch no holder and start no job. */
  ghost predicate HoldersUntouched(s: State, t: State) {
    && t.handlers == s.handlers && t.channel == s.channel && t.workers == s.workers
    && t.history == s.history && t.lost == s.lost && t.up == s.up
    && (forall j :: j in t.jobs ==> j in s.jobs && s.jobs[j].status == t.jobs[j].status)
  }

  lemma UntouchedKeepsHolders(s: State, t: State)
    requires Safe(s) && HoldersUntouched(s, t)
    ensures ActorsOk(t) && Unique(t) && NoneStranded(t)
  {
    forall p, q | HolderId(t, p).Some? && HolderId(t, p) == HolderId(t, q) ensures p == q {
      assert HolderId(s, p) == HolderId(t, p) && HolderId(s, q) == HolderId(t, q);
    }
    forall id | t.up && Unfinished(t, id) && id !in t.lost ensures Held(t, id) {
      var p :| HolderId(s, p) == Some(id);
      assert HolderId(t, p) == Some(id);
    }
  }

  lemma RestartLeavesNoneActive(s: State)
    ensures forall id :: !Unfinished(Restarted(s), id)
  {
  }

  lemma RestartKeepsHolders(s: State)
    requires Safe(s) && !s.up
    ensures ActorsOk(Restarted(s)) && Unique(Restarted(s)) && NoneStranded(Restarted(s))
  {
    RestartLeavesNoneActive(s);
    assert forall p :: HolderId(Restarted(s), p).None?;
  }

  lemma CrashKeepsHolders(s: State)
    requires Safe(s)
    ensures ActorsOk(Crashed(s)) && Unique(Crashed(s)) && NoneStranded(Crashed(s))
  {
    assert forall p :: HolderId(Crashed(s), p).None?;
  }

  lemma DeleterKeepsHolders(s: State, d: nat, e: DeleterStep)
    requires Safe(s) && DeleterEnabled(s, d, e)
    ensures var t := DeleterNext(s, d, e); ActorsOk(t) && Unique(t) && NoneStranded(t)
  {
    UntouchedKeepsHolders(s, DeleterNext(s, d, e));
  }

  lemma SweeperKeepsHolders(s: State, e: SweeperStep)
    requires Safe(s) && SweeperEnabled(s, e)
    ensures var t := SweeperNext(s, e); ActorsOk(t) && Unique(t) && NoneStranded(t)
  {
    UntouchedKeepsHolders(s, SweeperNext(s, e));
  }

  lemma HidingKeepsHolders(s: State, id: string, user: nat, hidden: bool)
    requires Safe(s)
    ensures var t := s.(jobs := WithHidden(s.jobs, id, user, hidden)); ActorsOk(t) && Unique(t) && NoneStranded(t)
  {
    UntouchedKeepsHolders(s, s.(jobs := WithHidden(s.jobs, id, user, hidden)));
  }

  lemma HoldersKept(s: State, e: Step)
    requires Safe(s) && Enabled(s, e) && !e.Redeliver?
    ensures var t := Next(s, e); ActorsOk(t) && Unique(t) && NoneStranded(t)
  {
    match e
    case OfHandler(h, step) => HandlerKeepsHolders(s, h, step);
    case OfWorker(w, step) => WorkerKeepsHolders(s, w, step);
    case Restart => RestartKeepsHolders(s);
    case Crash => CrashKeepsHolders(s);
    case OfDeleter(d, step) => DeleterKeepsHolders(s, d, step);
    case OfSweeper(step) => SweeperKeepsHolders(s, step);
    case Tick(_) => UntouchedKeepsHolders(s, Next(s, e));
    case Hide(id, user, hidden) => HidingKeepsHolders(s, id, user, hidden);
  }

  /** While no id is delivered twice, every unfinished job keeps its one holder. */
  lemma SafeKept(s: State, e: Step)
    requires Safe(s) && Enabled(s, e) && !e.Redeliver?
    ensures Safe(Next(s, e))
  {
    SoundKept(s, e);
    HoldersKept(s, e);
  }

  lemma {:induction false} SafeAlways(s: State, steps: seq<Step>)
    requires Safe(s) && ValidRun(s, steps) && Steady(steps)
    ensures Safe(After(s, steps))
    decreases steps
  {
    if steps != [] {
      assert steps[0] in steps;
      SafeKept(s, steps[0]);
      SafeAlways(Next(s, steps[0]), steps[1..]);
    }
  }
}
