/**
 * The generation job protocol as a state machine. One SQL statement, channel
 * operation, blob call or broadcast is one step; the steps of the request
 * handlers, the four workers, deletions, hiding, the retention sweep, the clock,
 * crash/restart and an environment that delivers ids twice interleave in every
 * possible order.
 */
module Protocol {
  import opened Basics
  import opened JobStatuses
  import opened Tables
  import opened BlobPaths

  const QUEUE_CAPACITY := 64
  const WORKER_COUNT := 4

  /** A `generate` request handler after its insert. */
  datatype Handler =
    | Inserted(id: string)  // before `try_send`
    | Refused(id: string)   // the queue was full, before `finish`

  datatype Worker =
    | Idle
    | Received(id: string)                     // before `mark_running`
    | Claimed(id: string)                      // before publishing `running`
    | Generating(id: string)                   // talking to the provider
    | Uploading(id: string, path: string)      // before the blob upload
    | Uploaded(id: string, path: string)       // before the asset insert
    | Finishing(id: string, outcome: JobStatus)  // before `finish`
    | Reporting(id: string, outcome: JobStatus)  // before publishing the outcome

  datatype Deleter =
    | Reading(id: string, user: nat, paths: set<string>)  // paths read, rows not deleted yet
    | Removing(id: string, paths: set<string>)            // rows deleted, blobs still to delete

  datatype Sweeper =
    | Resting
    | Sweeping(read: set<string>, remaining: set<string>, failed: set<string>,
               present: set<string>,   // of the paths read, those that had a blob then
               kept: set<string>)      // those whose delete was refused and did not take effect

  datatype Event = Published(id: string, status: JobStatus)

  datatype State = State(
    retention: nat,
    now: int,
    jobs: Jobs,
    assets: Assets,
    blobs: set<string>,
    history: map<string, seq<StatusName>>,  // every status ever written, per job; survives the row
    up: bool,
    channel: seq<string>,
    handlers: map<nat, Handler>,
    workers: seq<Worker>,
    deleters: map<nat, Deleter>,
    sweeper: Sweeper,
    sent: seq<Event>,                       // everything broadcast by this process
    lost: set<string>)                      // jobs whose holder was cancelled or lost its database call

  datatype HandlerStep =
    | Create(id: string, user: nat, media: MediaType)
    | Enqueue
    | FinishRefused
    | FinishRefusedError(applied: bool)
    | CancelHandler

  datatype WorkerStep =
    | Receive
    | Claim
    | ClaimError(applied: bool)
    | PublishRunning
    | Generated(year: nat, month: nat, media: MediaType, extension: string)
    | GenerationFailed(code: ErrorCode, message: Message)
    | Upload
    | UploadError(landed: bool)
    | InsertAsset(key: nat)
    | InsertAssetError(key: nat, applied: bool)
    | FinishOutcome
    | FinishOutcomeError(applied: bool)
    | PublishOutcome

  datatype DeleterStep =
    | ReadForDelete(id: string, user: nat)
    | DeleteRows
    | DeleteBlob(path: string, ok: bool, landed: bool)
    | EndDelete

  datatype SweeperStep =
    | ReadExpired
    | SweepBlob(path: string, ok: bool, landed: bool)
    | DeleteExpiredRows
    | AbandonSweep

  datatype Step =
    | Tick(elapsed: nat)
    | OfHandler(h: nat, handler: HandlerStep)
    | OfWorker(w: nat, worker: WorkerStep)
    | OfDeleter(d: nat, deleter: DeleterStep)
    | OfSweeper(sweeper: SweeperStep)
    | Hide(id: string, user: nat, hidden: bool)  // `set_hidden`, hiding or unhiding
    | Redeliver(id: string)                      // the environment puts a known id into the channel once more
    | Crash
    | Restart

  const INTERNAL_ERROR := Failed(Internal, ErrInternal)
  const QUEUE_FULL := Failed(RateLimited, ErrQueueFull)

  /** A fresh database and a running process. */
  predicate Initial(s: State) {
    && s.jobs == map[] && s.assets == map[] && s.blobs == {} && s.history == map[]
    && s.up && s.channel == [] && s.handlers == map[]
    && s.workers == seq(WORKER_COUNT, _ => Idle)
    && s.deleters == map[] && s.sweeper == Resting && s.sent == [] && s.lost == {}
  }

  predicate HandlerEnabled(s: State, h: nat, e: HandlerStep) {
    match e
    case Create(id, _, _) => h !in s.handlers && IsUuid(id) && id !in s.history
    case Enqueue => h in s.handlers && s.handlers[h].Inserted?
    case FinishRefused => h in s.handlers && s.handlers[h].Refused?
    case FinishRefusedError(_) => h in s.handlers && s.handlers[h].Refused?
    case CancelHandler => h in s.handlers
  }

  predicate WorkerEnabled(s: State, w: nat, e: WorkerStep) {
    w < |s.workers| &&
    match e
    case Receive => s.workers[w].Idle? && s.channel != []
    case Claim => s.workers[w].Received?
    case ClaimError(_) => s.workers[w].Received?
    case PublishRunning => s.workers[w].Claimed?
    case Generated(_, month, _, _) => s.workers[w].Generating? && 1 <= month <= 12
    case GenerationFailed(_, _) => s.workers[w].Generating?
    case Upload => s.workers[w].Uploading?
    case UploadError(_) => s.workers[w].Uploading?
    case InsertAsset(key) => s.workers[w].Uploaded? && key !in s.assets
    case InsertAssetError(key, _) => s.workers[w].Uploaded? && key !in s.assets
    case FinishOutcome => s.workers[w].Finishing?
    case FinishOutcomeError(_) => s.workers[w].Finishing?
    case PublishOutcome => s.workers[w].Reporting?
  }

  predicate DeleterEnabled(s: State, d: nat, e: DeleterStep) {
    match e
    case ReadForDelete(_, _) => d !in s.deleters
    case DeleteRows => d in s.deleters && s.deleters[d].Reading?
    case DeleteBlob(path, _, _) => d in s.deleters && s.deleters[d].Removing? && path in s.deleters[d].paths
    case EndDelete => d in s.deleters
  }

  predicate SweeperEnabled(s: State, e: SweeperStep) {
    match e
    case ReadExpired => s.sweeper.Resting? && s.retention > 0
    case SweepBlob(path, _, _) => s.sweeper.Sweeping? && path in s.sweeper.remaining
    case DeleteExpiredRows => s.sweeper.Sweeping? && s.sweeper.remaining == {}
    case AbandonSweep => s.sweeper.Sweeping?
  }

  /** Nothing but the clock moves while the process is down; only a restart ends that. */
  predicate Enabled(s: State, e: Step) {
    match e
    case Tick(_) => true
    case OfHandler(h, step) => s.up && HandlerEnabled(s, h, step)
    case OfWorker(w, step) => s.up && WorkerEnabled(s, w, step)
    case OfDeleter(d, step) => s.up && DeleterEnabled(s, d, step)
    case OfSweeper(step) => s.up && SweeperEnabled(s, step)
    case Hide(_, _, _) => s.up
    case Redeliver(id) => s.up && id in s.history && |s.channel| < QUEUE_CAPACITY
    case Crash => s.up
    case Restart => !s.up
  }

  function Log(history: map<string, seq<StatusName>>, id: string, name: StatusName): map<string, seq<StatusName>> {
    history[id := (if id in history then history[id] else []) + [name]]
  }

  /** `update … set status = 'running' where id = $1 and status = 'queued'`. */
  function WriteRunning(s: State, id: string): State {
    s.(jobs := MarkRunning(s.jobs, id, s.now),
       history := if Claimable(s.jobs, id) then Log(s.history, id, RunningName) else s.history)
  }

  /** `update … where id = $1 and status in ('queued', 'running')`. */
  function WriteTerminal(s: State, id: string, status: JobStatus): State {
    s.(jobs := Finish(s.jobs, id, status, s.now),
       history := if Finishable(s.jobs, id) then Log(s.history, id, NameOf(status)) else s.history)
  }

  function Move(s: State, w: nat, to: Worker): State
    requires w < |s.workers|
  {
    s.(workers := s.workers[w := to])
  }

  function Broadcast(s: State, id: string, status: JobStatus): State {
    s.(sent := s.sent + [Published(id, status)])
  }

  function SendOrRefuse(s: State, h: nat): State
    requires h in s.handlers
  {
    var id := s.handlers[h].id;
    var room := |s.channel| < QUEUE_CAPACITY;
    s.(channel := if room then s.channel + [id] else s.channel,
       handlers := if room then s.handlers - {h} else s.handlers[h := Refused(id)])
  }

  /** The foreign key refuses an asset whose job is gone. */
  function WithAsset(s: State, key: nat, me: Worker): Assets
    requires me.Uploaded?
  {
    if me.id in s.jobs then s.assets[key := Asset(me.id, me.path)] else s.assets
  }

  function DeleteRowsOf(s: State, d: nat): State
    requires d in s.deleters && s.deleters[d].Reading?
  {
    var r := s.deleters[d];
    var jobs := DeleteOwned(s.jobs, r.id, r.user);
    s.(jobs := jobs, assets := Cascade(s.assets, jobs),
       deleters := if OwnedBy(s.jobs, r.id, r.user) then s.deleters[d := Removing(r.id, r.paths)] else s.deleters - {d})
  }

  function DeleteRowsExpired(s: State): State {
    var jobs := DeleteExpired(s.jobs, s.now, s.retention);
    s.(jobs := jobs, assets := Cascade(s.assets, jobs), sweeper := Resting)
  }

  function FailHistory(jobs: Jobs, history: map<string, seq<StatusName>>): map<string, seq<StatusName>> {
    map id | id in history ::
      if id in jobs && Active(jobs[id]) then history[id] + [FailedName] else history[id]
  }

  /** `main`: `fail_orphans` runs before the workers are spawned. */
  function Restarted(s: State): State {
    s.(jobs := FailOrphans(s.jobs, INTERRUPTED, s.now), history := FailHistory(s.jobs, s.history),
       up := true, workers := seq(WORKER_COUNT, _ => Idle), lost := {})
  }

  /** Everything in memory is gone; the database and the container stay. */
  function Crashed(s: State): State {
    s.(up := false, channel := [], handlers := map[], workers := [], deleters := map[],
       sweeper := Resting, sent := [])
  }

  function HandlerNext(s: State, h: nat, e: HandlerStep): State
    requires HandlerEnabled(s, h, e)
  {
    match e
    case Create(id, user, media) =>
      s.(jobs := s.jobs[id := NewRow(user, media, s.now)], history := Log(s.history, id, QueuedName),
         handlers := s.handlers[h := Inserted(id)])
    case Enqueue => SendOrRefuse(s, h)
    case FinishRefused => WriteTerminal(s, s.handlers[h].id, QUEUE_FULL).(handlers := s.handlers - {h})
    case FinishRefusedError(applied) =>
      (if applied then WriteTerminal(s, s.handlers[h].id, QUEUE_FULL) else s)
        .(handlers := s.handlers - {h}, lost := s.lost + {s.handlers[h].id})
    case CancelHandler => s.(handlers := s.handlers - {h}, lost := s.lost + {s.handlers[h].id})
  }

  function WorkerNext(s: State, w: nat, e: WorkerStep): State
    requires WorkerEnabled(s, w, e)
  {
    var me := s.workers[w];
    match e
    case Receive => Move(s.(channel := s.channel[1..]), w, Received(s.channel[0]))
    case Claim => Move(WriteRunning(s, me.id), w, if Claimable(s.jobs, me.id) then Claimed(me.id) else Idle)
    case ClaimError(applied) =>
      Move(if applied then WriteRunning(s, me.id) else s, w, Idle).(lost := s.lost + {me.id})
    case PublishRunning => Move(Broadcast(s, me.id, Running), w, Generating(me.id))
    case Generated(year, month, media, extension) =>
      Move(s, w, Uploading(me.id, BlobPath(year, month, media, me.id, extension)))
    case GenerationFailed(code, message) => Move(s, w, Finishing(me.id, Failed(code, message)))
    case Upload => Move(s.(blobs := s.blobs + {me.path}), w, Uploaded(me.id, me.path))
    case UploadError(landed) =>
      Move(s.(blobs := if landed then s.blobs + {me.path} else s.blobs), w, Finishing(me.id, INTERNAL_ERROR))
    case InsertAsset(key) =>
      Move(s.(assets := WithAsset(s, key, me)), w,
           Finishing(me.id, if me.id in s.jobs then Succeeded else INTERNAL_ERROR))
    case InsertAssetError(key, applied) =>
      Move(s.(assets := if applied then WithAsset(s, key, me) else s.assets), w, Finishing(me.id, INTERNAL_ERROR))
    case FinishOutcome =>
      Move(WriteTerminal(s, me.id, me.outcome), w,
           if Finishable(s.jobs, me.id) then Reporting(me.id, me.outcome) else Idle)
    case FinishOutcomeError(applied) =>
      Move(if applied then WriteTerminal(s, me.id, me.outcome) else s, w, Idle).(lost := s.lost + {me.id})
    case PublishOutcome => Move(Broadcast(s, me.id, me.outcome), w, Idle)
  }

  function DeleterNext(s: State, d: nat, e: DeleterStep): State
    requires DeleterEnabled(s, d, e)
  {
    match e
    case ReadForDelete(id, user) =>
      s.(deleters := s.deleters[d := Reading(id, user, PathsOfJob(s.assets, s.jobs, id, user))])
    case DeleteRows => DeleteRowsOf(s, d)
    case DeleteBlob(path, ok, landed) =>
      s.(blobs := if ok || landed then s.blobs - {path} else s.blobs,
         deleters := s.deleters[d := Removing(s.deleters[d].id, s.deleters[d].paths - {path})])
    case EndDelete => s.(deleters := s.deleters - {d})
  }

  function SweeperNext(s: State, e: SweeperStep): State
    requires SweeperEnabled(s, e)
  {
    match e
    case ReadExpired =>
      var paths := ExpiredPaths(s.assets, s.jobs, s.now, s.retention);
      s.(sweeper := Sweeping(paths, paths, {}, paths * s.blobs, {}))
    case SweepBlob(path, ok, landed) =>
      s.(blobs := if ok || landed then s.blobs - {path} else s.blobs,
         sweeper := s.sweeper.(remaining := s.sweeper.remaining - {path},
                               failed := if ok then s.sweeper.failed else s.sweeper.failed + {path},
                               kept := if ok || landed then s.sweeper.kept else s.sweeper.kept + {path}))
    case DeleteExpiredRows => DeleteRowsExpired(s)
    case AbandonSweep => s.(sweeper := Resting)
  }

  function Next(s: State, e: Step): State
    requires Enabled(s, e)
  {
    match e
    case Tick(elapsed) => s.(now := s.now + elapsed)
    case OfHandler(h, step) => HandlerNext(s, h, step)
    case OfWorker(w, step) => WorkerNext(s, w, step)
    case OfDeleter(d, step) => DeleterNext(s, d, step)
    case OfSweeper(step) => SweeperNext(s, step)
    case Hide(id, user, hidden) => s.(jobs := WithHidden(s.jobs, id, user, hidden))
    case Redeliver(id) => s.(channel := s.channel + [id])
    case Crash => Crashed(s)
    case Restart => Restarted(s)
  }

  // ---------------------------------------------------------------- what each actor leaves alone

  /** Clock and configuration stand still, and events are only added. */
  predicate SameMoment(s: State, t: State) {
    t.now == s.now && t.retention == s.retention && t.up == s.up && s.sent <= t.sent
  }

  lemma HandlerFrame(s: State, h: nat, e: HandlerStep)
    requires HandlerEnabled(s, h, e)
    ensures var t := HandlerNext(s, h, e);
      SameMoment(s, t) && t.sweeper == s.sweeper && t.deleters == s.deleters && t.workers == s.workers
  {
  }

  /** What a worker step leaves alone. */
  predicate WorkerLeaves(s: State, t: State) {
    SameMoment(s, t) && t.sweeper == s.sweeper && t.deleters == s.deleters && t.handlers == s.handlers
  }

  lemma ClaimFrame(s: State, w: nat, e: WorkerStep)
    requires WorkerEnabled(s, w, e) && (e.Claim? || e.ClaimError?)
    ensures WorkerLeaves(s, WorkerNext(s, w, e))
  {
  }

  lemma FinishFrame(s: State, w: nat, e: WorkerStep)
    requires WorkerEnabled(s, w, e) && (e.FinishOutcome? || e.FinishOutcomeError?)
    ensures WorkerLeaves(s, WorkerNext(s, w, e))
  {
  }

  lemma WorkerFrame(s: State, w: nat, e: WorkerStep)
    requires WorkerEnabled(s, w, e)
    ensures WorkerLeaves(s, WorkerNext(s, w, e))
  {
    match e
    case Claim => ClaimFrame(s, w, e);
    case ClaimError(_) => ClaimFrame(s, w, e);
    case FinishOutcome => FinishFrame(s, w, e);
    case FinishOutcomeError(_) => FinishFrame(s, w, e);
    case _ =>
  }

  lemma DeleterFrame(s: State, d: nat, e: DeleterStep)
    requires DeleterEnabled(s, d, e)
    ensures var t := DeleterNext(s, d, e);
      && SameMoment(s, t) && t.sweeper == s.sweeper && t.workers == s.workers && t.handlers == s.handlers
      && t.channel == s.channel && t.history == s.history && t.lost == s.lost
  {
  }

  lemma SweeperFrame(s: State, e: SweeperStep)
    requires SweeperEnabled(s, e)
    ensures var t := SweeperNext(s, e);
      && SameMoment(s, t) && t.deleters == s.deleters && t.workers == s.workers && t.handlers == s.handlers
      && t.channel == s.channel && t.history == s.history && t.lost == s.lost
  {
  }

  /** The program itself never delivers an id twice; some guarantees hold even if something does. */
  predicate Steady(steps: seq<Step>) { forall e :: e in steps ==> !e.Redeliver? }

  predicate ValidRun(s: State, steps: seq<Step>)
    decreases steps
  {
    steps == [] || (Enabled(s, steps[0]) && ValidRun(Next(s, steps[0]), steps[1..]))
  }

  function After(s: State, steps: seq<Step>): State
    requires ValidRun(s, steps)
    decreases steps
  {
    if steps == [] then s else After(Next(s, steps[0]), steps[1..])
  }

  lemma {:induction false} RunsJoin(s: State, first: seq<Step>, second: seq<Step>)
    requires ValidRun(s, first) && ValidRun(After(s, first), second)
    ensures ValidRun(s, first + second) && After(s, first + second) == After(After(s, first), second)
    decreases first
  {
    if first == [] {
      assert first + second == second;
    } else {
      assert (first + second)[0] == first[0] && (first + second)[1..] == first[1..] + second;
      RunsJoin(Next(s, first[0]), first[1..], second);
    }
  }
}
