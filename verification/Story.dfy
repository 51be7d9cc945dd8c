/** Where every column of a row comes from: the request, the claim, the write that ended the job, and what decided it. */
module Story {
  import opened Basics
  import opened JobStatuses
  import opened Tables
  import opened BlobPaths
  import opened Protocol
  import opened ProtocolSafety
  import opened ProtocolMedia
  import opened JobGuarantees

  /** A step of a run and the state it was taken in. */
  datatype Moment = Moment(s: State, e: Step)

  function Trace(s: State, steps: seq<Step>): seq<Moment>
    requires ValidRun(s, steps)
    decreases steps
  {
    if steps == [] then [] else [Moment(s, steps[0])] + Trace(Next(s, steps[0]), steps[1..])
  }

  // ---------------------------------------------------------------- what a moment does

  /** A request by this user for this type of media, at this time. */
  predicate Asks(m: Moment, id: string, row: Row) {
    m.e.OfHandler? && m.e.handler == Create(id, row.user, row.media) && m.s.now == row.createdAt
  }

  /** A worker's claim of the job reaches its row. */
  predicate Takes(m: Moment, id: string) {
    && m.e.OfWorker? && m.e.w < |m.s.workers| && m.s.workers[m.e.w] == Received(id)
    && (m.e.worker.Claim? || (m.e.worker.ClaimError? && m.e.worker.applied))
  }

  /** The terminal status the moment writes to the job's row, if it is unfinished. */
  function Writes(m: Moment, id: string): Option<JobStatus> {
    match m.e
    case OfHandler(h, e) =>
      if h in m.s.handlers && m.s.handlers[h] == Refused(id) && (e.FinishRefused? || (e.FinishRefusedError? && e.applied))
      then Some(Failed(RateLimited, ErrQueueFull)) else None
    case OfWorker(w, e) =>
      if && w < |m.s.workers| && m.s.workers[w].Finishing? && m.s.workers[w].id == id
         && (e.FinishOutcome? || (e.FinishOutcomeError? && e.applied))
      then Some(m.s.workers[w].outcome) else None
    case Restart => Some(Failed(Internal, ErrJobInterrupted))
    case _ => None
  }

  /** The moment at which a worker learns how its job ends. */
  predicate Decides(m: Moment, id: string, outcome: JobStatus) {
    && m.e.OfWorker? && m.e.w < |m.s.workers|
    && var me := m.s.workers[m.e.w];
    match m.e.worker
    case GenerationFailed(code, message) => me == Generating(id) && outcome == Failed(code, message)
    case UploadError(_) => me.Uploading? && me.id == id && outcome == Failed(Internal, ErrInternal)
    case InsertAsset(_) =>
      me.Uploaded? && me.id == id && outcome == if id in m.s.jobs then Succeeded else Failed(Internal, ErrInternal)
    case InsertAssetError(_, _) => me.Uploaded? && me.id == id && outcome == Failed(Internal, ErrInternal)
    case _ => false
  }

  function Ended(row: Row, status: JobStatus, now: int): Row {
    row.(status := NameOf(status), errorCode := CodeColumn(status), errorMessage := MessageColumn(status),
         completedAt := Some(now))
  }

  // ---------------------------------------------------------------- what a moment may change in a row

  /** Nothing but the `hidden` flag may differ, and that only as the owner's step says. */
  predicate Untouched(m: Moment, was: Row, id: string, row: Row) {
    row == was || (m.e == Hide(id, was.user, row.hidden) && SameButHidden(was, row))
  }

  /** The row after the moment: a new one as asked for, the one before but for `hidden`, claimed, or ended. */
  ghost predicate RowMoves(m: Moment, t: State, id: string)
    requires id in t.jobs
  {
    var row := t.jobs[id];
    if id !in m.s.jobs then Asks(m, id, row) && row == Row(row.user, row.media, false, QueuedName, None, None, m.s.now, None, None)
    else
      var was := m.s.jobs[id];
      || Untouched(m, was, id, row)
      || (Takes(m, id) && row == was.(status := RunningName, startedAt := Some(m.s.now)))
      || (Writes(m, id).Some? && row == Ended(was, Writes(m, id).value, m.s.now))
  }

  lemma HandlerMovesRow(s: State, h: nat, e: HandlerStep, id: string)
    requires HandlerEnabled(s, h, e) && id in HandlerNext(s, h, e).jobs && (id in s.jobs ==> id in s.history)
    ensures RowMoves(Moment(s, OfHandler(h, e)), HandlerNext(s, h, e), id)
  {
  }

  lemma ClaimMovesRow(s: State, w: nat, e: WorkerStep, id: string)
    requires WorkerEnabled(s, w, e) && (e.Claim? || e.ClaimError?) && id in WorkerNext(s, w, e).jobs
    ensures RowMoves(Moment(s, OfWorker(w, e)), WorkerNext(s, w, e), id)
  {
  }

  lemma FinishMovesRow(s: State, w: nat, e: WorkerStep, id: string)
    requires WorkerEnabled(s, w, e) && (e.FinishOutcome? || e.FinishOutcomeError?) && id in WorkerNext(s, w, e).jobs
    ensures RowMoves(Moment(s, OfWorker(w, e)), WorkerNext(s, w, e), id)
  {
  }

  lemma WorkerMovesRow(s: State, w: nat, e: WorkerStep, id: string)
    requires WorkerEnabled(s, w, e) && id in WorkerNext(s, w, e).jobs
    ensures RowMoves(Moment(s, OfWorker(w, e)), WorkerNext(s, w, e), id)
  {
    if e.Claim? || e.ClaimError? {
      ClaimMovesRow(s, w, e, id);
    } else if e.FinishOutcome? || e.FinishOutcomeError? {
      FinishMovesRow(s, w, e, id);
    } else {
      assert WorkerNext(s, w, e).jobs == s.jobs;
    }
  }

  lemma CleanersMoveRow(s: State, d: nat, e: DeleterStep, f: SweeperStep, id: string)
    ensures DeleterEnabled(s, d, e) && id in DeleterNext(s, d, e).jobs ==>
      RowMoves(Moment(s, OfDeleter(d, e)), DeleterNext(s, d, e), id)
    ensures SweeperEnabled(s, f) && id in SweeperNext(s, f).jobs ==>
      RowMoves(Moment(s, OfSweeper(f)), SweeperNext(s, f), id)
  {
  }

  lemma StepMovesRow(s: State, e: Step, id: string)
    requires Enabled(s, e) && id in Next(s, e).jobs && (id in s.jobs ==> id in s.history)
    ensures RowMoves(Moment(s, e), Next(s, e), id)
  {
    match e
    case OfHandler(h, step) => HandlerMovesRow(s, h, step, id);
    case OfWorker(w, step) => WorkerMovesRow(s, w, step, id);
    case OfDeleter(d, step) => CleanersMoveRow(s, d, step, ReadExpired, id);
    case OfSweeper(step) => CleanersMoveRow(s, 0, EndDelete, step, id);
    case _ =>
  }

  lemma WorkerMomentsTakeEffect(s: State, w: nat, e: WorkerStep, id: string)
    requires WorkerEnabled(s, w, e) && id in s.jobs && RowOk(s.jobs[id], s.now)
    ensures var m := Moment(s, OfWorker(w, e)); var row := s.jobs[id]; var after := WorkerNext(s, w, e).jobs;
      && id in after
      && (Takes(m, id) && row.status.QueuedName? ==> after[id] == row.(status := RunningName, startedAt := Some(s.now)))
      && (Writes(m, id).Some? && row.completedAt.None? ==> after[id] == Ended(row, Writes(m, id).value, s.now))
  {
  }

  lemma HandlerMomentsTakeEffect(s: State, h: nat, e: HandlerStep, id: string)
    requires HandlerEnabled(s, h, e)
    ensures var m := Moment(s, OfHandler(h, e)); var after := HandlerNext(s, h, e).jobs;
      && (e.Create? && e.id == id ==> id in after && after[id].user == e.user && after[id].media == e.media)
      && (id in s.jobs && RowOk(s.jobs[id], s.now) && s.jobs[id].completedAt.None? && Writes(m, id).Some? ==>
            id in after && after[id] == Ended(s.jobs[id], Writes(m, id).value, s.now))
  {
  }

  /**
   * And every such moment is felt: a request makes its row, a claim starts a queued one, a write ends an unfinished one,
   * and the owner's word on hiding it stands.
   */
  lemma MomentsTakeEffect(s: State, e: Step, id: string)
    requires RowsOk(s.jobs, s.history, s.now) && Enabled(s, e)
    ensures var m := Moment(s, e); var after := Next(s, e).jobs;
      && (e.OfHandler? && e.handler.Create? && e.handler.id == id ==>
            id in after && after[id].user == e.handler.user && after[id].media == e.handler.media)
      && (id in s.jobs && s.jobs[id].status.QueuedName? && Takes(m, id) ==>
            id in after && after[id] == s.jobs[id].(status := RunningName, startedAt := Some(s.now)))
      && (id in s.jobs && s.jobs[id].completedAt.None? && Writes(m, id).Some? ==>
            id in after && after[id] == Ended(s.jobs[id], Writes(m, id).value, s.now))
      && (id in s.jobs && e.Hide? && e.id == id && e.user == s.jobs[id].user ==>
            id in after && after[id] == s.jobs[id].(hidden := e.hidden))
  {
    if id in s.jobs {
      assert RowFits(s.jobs[id], s.history[id], s.now);
      if e.OfWorker? { WorkerMomentsTakeEffect(s, e.w, e.worker, id); }
    }
    if e.OfHandler? { HandlerMomentsTakeEffect(s, e.h, e.handler, id); }
  }

  // ---------------------------------------------------------------- the story so far

  ghost predicate Decided(log: seq<Moment>, id: string, outcome: JobStatus) {
    exists m :: m in log && Decides(m, id, outcome)
  }

  ghost predicate AskedFor(log: seq<Moment>, id: string, row: Row) { exists m :: m in log && Asks(m, id, row) }

  ghost predicate Taken(log: seq<Moment>, id: string, at: int) { exists m :: m in log && Takes(m, id) && m.s.now == at }

  /** Written at this time by that moment; and if by a worker, decided before. */
  ghost predicate EndedBy(m: Moment, log: seq<Moment>, id: string, row: Row) {
    && Writes(m, id).Some? && row == Ended(row, Writes(m, id).value, m.s.now)
    && (m.e.OfWorker? ==> Decided(log, id, Writes(m, id).value))
  }

  ghost predicate WasEnded(log: seq<Moment>, id: string, row: Row) { exists m :: m in log && EndedBy(m, log, id, row) }

  ghost predicate HiddenBy(log: seq<Moment>, id: string, user: nat) { exists m :: m in log && m.e == Hide(id, user, true) }

  ghost predicate Told(log: seq<Moment>, id: string, row: Row) {
    && AskedFor(log, id, row)
    && (row.hidden ==> HiddenBy(log, id, row.user))
    && (row.startedAt.Some? ==> Taken(log, id, row.startedAt.value))
    && (row.completedAt.Some? ==> WasEnded(log, id, row))
  }

  /** Every worker about to finish its job learned the outcome before. */
  ghost predicate CrewDecided(log: seq<Moment>, workers: seq<Worker>) {
    forall w: nat :: w < |workers| && workers[w].Finishing? ==> Decided(log, workers[w].id, workers[w].outcome)
  }

  ghost predicate StoryOk(log: seq<Moment>, s: State) {
    (forall id :: id in s.jobs ==> Told(log, id, s.jobs[id])) && CrewDecided(log, s.workers)
  }

  lemma DecidedStays(log: seq<Moment>, m: Moment, id: string, outcome: JobStatus)
    requires Decided(log, id, outcome)
    ensures Decided(log + [m], id, outcome)
  {
    var d :| d in log && Decides(d, id, outcome);
    assert d in log + [m];
  }

  lemma HidingStays(log: seq<Moment>, m: Moment, id: string, user: nat)
    requires HiddenBy(log, id, user)
    ensures HiddenBy(log + [m], id, user)
  {
    var h :| h in log && h.e == Hide(id, user, true);
    assert h in log + [m];
  }

  /** A longer log tells no less. */
  lemma ToldStays(log: seq<Moment>, m: Moment, id: string, was: Row, row: Row)
    requires Told(log, id, was) && Untouched(m, was, id, row)
    ensures Told(log + [m], id, row)
  {
    assert m in log + [m];
    if was.hidden { HidingStays(log, m, id, was.user); }
    var a :| a in log && Asks(a, id, was);
    assert a in log + [m] && Asks(a, id, row);
    if row.startedAt.Some? {
      var c :| c in log && Takes(c, id) && c.s.now == row.startedAt.value;
      assert c in log + [m];
    }
    if row.completedAt.Some? {
      var f :| f in log && EndedBy(f, log, id, was);
      if f.e.OfWorker? { DecidedStays(log, m, id, Writes(f, id).value); }
      assert f in log + [m] && EndedBy(f, log + [m], id, row);
    }
  }

  lemma NewRowIsTold(log: seq<Moment>, m: Moment, id: string, row: Row)
    requires Asks(m, id, row) && row.startedAt.None? && row.completedAt.None? && !row.hidden
    ensures Told(log + [m], id, row)
  {
    assert m in log + [m];
  }

  lemma TakenIsTold(log: seq<Moment>, m: Moment, id: string, was: Row, row: Row)
    requires Told(log, id, was) && Takes(m, id) && row == was.(status := RunningName, startedAt := Some(m.s.now))
    requires was.completedAt.None?
    ensures Told(log + [m], id, row)
  {
    var a :| a in log && Asks(a, id, was);
    assert a in log + [m] && Asks(a, id, row);
    assert m in log + [m];
    if was.hidden { HidingStays(log, m, id, was.user); }
  }

  lemma EndedIsTold(log: seq<Moment>, m: Moment, id: string, was: Row)
    requires Told(log, id, was) && Writes(m, id).Some?
    requires m.e.OfWorker? ==> Decided(log, id, Writes(m, id).value)
    ensures Told(log + [m], id, Ended(was, Writes(m, id).value, m.s.now))
  {
    var row := Ended(was, Writes(m, id).value, m.s.now);
    if was.hidden { HidingStays(log, m, id, was.user); }
    var a :| a in log && Asks(a, id, was);
    assert a in log + [m] && Asks(a, id, row);
    if row.startedAt.Some? {
      var c :| c in log && Takes(c, id) && c.s.now == row.startedAt.value;
      assert c in log + [m];
    }
    if m.e.OfWorker? { DecidedStays(log, m, id, Writes(m, id).value); }
    assert m in log + [m] && EndedBy(m, log + [m], id, row);
  }

  lemma MoveIsTold(log: seq<Moment>, m: Moment, t: State, id: string)
    requires id in t.jobs && RowMoves(m, t, id) && CrewDecided(log, m.s.workers)
    requires id in m.s.jobs ==> Told(log, id, m.s.jobs[id])
    requires id in m.s.jobs && Takes(m, id) && !Untouched(m, m.s.jobs[id], id, t.jobs[id]) ==>
      m.s.jobs[id].completedAt.None? && Writes(m, id).None?
    ensures Told(log + [m], id, t.jobs[id])
  {
    var row := t.jobs[id];
    if id !in m.s.jobs {
      NewRowIsTold(log, m, id, row);
    } else if Untouched(m, m.s.jobs[id], id, row) {
      ToldStays(log, m, id, m.s.jobs[id], row);
    } else if Takes(m, id) {
      TakenIsTold(log, m, id, m.s.jobs[id], row);
    } else {
      EndedIsTold(log, m, id, m.s.jobs[id]);
    }
  }

  lemma RowStaysTold(log: seq<Moment>, s: State, e: Step, id: string)
    requires RowsOk(s.jobs, s.history, s.now) && StoryOk(log, s) && Enabled(s, e) && id in Next(s, e).jobs
    ensures Told(log + [Moment(s, e)], id, Next(s, e).jobs[id])
  {
    StepMovesRow(s, e, id);
    if id in s.jobs && Takes(Moment(s, e), id) && !Untouched(Moment(s, e), s.jobs[id], id, Next(s, e).jobs[id]) {
      StartedIsUnfinished(s, e, id);
    }
    MoveIsTold(log, Moment(s, e), Next(s, e), id);
  }

  lemma StartedIsUnfinished(s: State, e: Step, id: string)
    requires RowsOk(s.jobs, s.history, s.now) && Enabled(s, e) && Takes(Moment(s, e), id)
    requires id in s.jobs && id in Next(s, e).jobs && !Untouched(Moment(s, e), s.jobs[id], id, Next(s, e).jobs[id])
    ensures s.jobs[id].completedAt.None? && Writes(Moment(s, e), id).None?
  {
    assert RowFits(s.jobs[id], s.history[id], s.now);
  }

  lemma WorkerStaysDecided(log: seq<Moment>, s: State, w: nat, e: WorkerStep, v: nat, x: Worker)
    requires CrewDecided(log, s.workers) && WorkerEnabled(s, w, e)
    requires v < |WorkerNext(s, w, e).workers| && WorkerNext(s, w, e).workers[v] == x && x.Finishing?
    ensures Decided(log + [Moment(s, OfWorker(w, e))], x.id, x.outcome)
  {
    var m := Moment(s, OfWorker(w, e));
    if v == w {
      assert Decides(m, x.id, x.outcome);
      assert m in log + [m];
    } else {
      DecidedStays(log, m, x.id, x.outcome);
    }
  }

  lemma OthersLeaveWorkers(s: State, e: Step, v: nat, x: Worker)
    requires Enabled(s, e) && !e.OfWorker? && v < |Next(s, e).workers| && Next(s, e).workers[v] == x && x.Finishing?
    ensures v < |s.workers| && s.workers[v] == x
  {
    match e
    case OfHandler(h, step) => HandlerFrame(s, h, step);
    case OfDeleter(d, step) => DeleterFrame(s, d, step);
    case OfSweeper(step) => SweeperFrame(s, step);
    case _ =>
  }

  lemma AnyStepKeepsDecided(log: seq<Moment>, s: State, e: Step, v: nat)
    requires CrewDecided(log, s.workers) && v < |s.workers| && s.workers[v].Finishing?
    ensures Decided(log + [Moment(s, e)], s.workers[v].id, s.workers[v].outcome)
  {
    DecidedStays(log, Moment(s, e), s.workers[v].id, s.workers[v].outcome);
  }

  lemma WorkersStayDecided(log: seq<Moment>, s: State, e: Step, v: nat, x: Worker)
    requires CrewDecided(log, s.workers) && Enabled(s, e)
    requires v < |Next(s, e).workers| && Next(s, e).workers[v] == x && x.Finishing?
    ensures Decided(log + [Moment(s, e)], x.id, x.outcome)
  {
    if e.OfWorker? {
      WorkerStaysDecided(log, s, e.w, e.worker, v, x);
    } else {
      OthersLeaveWorkers(s, e, v, x);
      AnyStepKeepsDecided(log, s, e, v);
    }
  }

  lemma StoryKept(log: seq<Moment>, s: State, e: Step)
    requires RowsOk(s.jobs, s.history, s.now) && StoryOk(log, s) && Enabled(s, e)
    ensures StoryOk(log + [Moment(s, e)], Next(s, e))
  {
    var t := Next(s, e);
    forall id | id in t.jobs ensures Told(log + [Moment(s, e)], id, t.jobs[id]) {
      RowStaysTold(log, s, e, id);
    }
    forall w: nat | w < |t.workers| && t.workers[w].Finishing?
      ensures Decided(log + [Moment(s, e)], t.workers[w].id, t.workers[w].outcome)
    {
      WorkersStayDecided(log, s, e, w, t.workers[w]);
    }
  }

  lemma {:induction false} StoryAlways(log: seq<Moment>, s: State, steps: seq<Step>)
    requires Sound(s) && StoryOk(log, s) && ValidRun(s, steps)
    ensures StoryOk(log + Trace(s, steps), After(s, steps))
    decreases steps
  {
    if steps == [] {
      assert log + Trace(s, steps) == log;
    } else {
      var m := Moment(s, steps[0]);
      SoundKept(s, steps[0]);
      StoryKept(log, s, steps[0]);
      StoryAlways(log + [m], Next(s, steps[0]), steps[1..]);
      assert log + Trace(s, steps) == (log + [m]) + Trace(Next(s, steps[0]), steps[1..]);
    }
  }

  lemma StoryReaches(s0: State, steps: seq<Step>)
    requires Initial(s0) && ValidRun(s0, steps)
    ensures StoryOk(Trace(s0, steps), After(s0, steps))
  {
    InitialIsSafe(s0);
    assert forall w: nat :: w < |s0.workers| ==> s0.workers[w].Idle?;
    StoryAlways([], s0, steps);
    assert [] + Trace(s0, steps) == Trace(s0, steps);
  }

  /**
   * Every column of every row has its step in the run: owner, type and creation time are those of the request; a hidden
   * row was hidden by its owner; the start is the time of the worker's claim; the end is the time, and the status the very
   * one, of the write that finished it.
   */
  lemma EveryColumnHasItsStep(s0: State, steps: seq<Step>, id: string)
    requires Initial(s0) && ValidRun(s0, steps) && id in After(s0, steps).jobs
    ensures var row := After(s0, steps).jobs[id]; var log := Trace(s0, steps);
      && AskedFor(log, id, row)
      && (row.hidden ==> HiddenBy(log, id, row.user))
      && (row.startedAt.Some? ==> Taken(log, id, row.startedAt.value))
      && (row.completedAt.Some? ==>
            exists m :: m in log && Writes(m, id) == Some(StatusOf(row)) && m.s.now == row.completedAt.value)
  {
    StoryReaches(s0, steps);
    var row := After(s0, steps).jobs[id];
    var log := Trace(s0, steps);
    if row.completedAt.Some? {
      var m :| m in log && EndedBy(m, log, id, row);
      StatusReadsBack(Writes(m, id).value);
    }
  }

  /**
   * Every outcome has its cause: a finished row says that the queue was full and a handler refused it, that a restart cut
   * it off, or exactly what a worker met with - the provider's own error, a failed upload or insert, or a stored asset.
   */
  lemma EveryOutcomeHasItsCause(s0: State, steps: seq<Step>, id: string)
    requires Initial(s0) && ValidRun(s0, steps) && id in After(s0, steps).jobs && After(s0, steps).jobs[id].completedAt.Some?
    ensures var status := StatusOf(After(s0, steps).jobs[id]); var log := Trace(s0, steps);
      || (status == Failed(RateLimited, ErrQueueFull)
          && exists m :: m in log && m.e.OfHandler? && Writes(m, id) == Some(status))
      || (status == Failed(Internal, ErrJobInterrupted) && exists m :: m in log && m.e.Restart?)
      || Decided(log, id, status)
  {
    StoryReaches(s0, steps);
    var row := After(s0, steps).jobs[id];
    var log := Trace(s0, steps);
    var m :| m in log && EndedBy(m, log, id, row);
    StatusReadsBack(Writes(m, id).value);
  }

  // ---------------------------------------------------------------- where the media comes from

  /** The provider's media for the job is given this path: the month, the type, the job's own id and the extension. */
  predicate Makes(m: Moment, id: string, path: string) {
    && m.e.OfWorker? && m.e.w < |m.s.workers| && m.s.workers[m.e.w] == Generating(id)
    && m.e.worker.Generated? && 1 <= m.e.worker.month <= 12
    && path == BlobPath(m.e.worker.year, m.e.worker.month, m.e.worker.media, id, m.e.worker.extension)
  }

  ghost predicate Made(log: seq<Moment>, id: string, path: string) { exists m :: m in log && Makes(m, id, path) }

  ghost predicate MediaTold(log: seq<Moment>, workers: seq<Worker>, assets: Assets) {
    && (forall w: nat :: w < |workers| && (workers[w].Uploading? || workers[w].Uploaded?) ==>
          Made(log, workers[w].id, workers[w].path))
    && (forall a :: a in assets ==> Made(log, assets[a].jobId, assets[a].path))
  }

  lemma MadeStays(log: seq<Moment>, m: Moment, id: string, path: string)
    requires Made(log, id, path)
    ensures Made(log + [m], id, path)
  {
    var d :| d in log && Makes(d, id, path);
    assert d in log + [m];
  }

  lemma MediaStaysTold(log: seq<Moment>, m: Moment, workers: seq<Worker>, assets: Assets)
    requires MediaTold(log, workers, assets)
    ensures MediaTold(log + [m], workers, assets)
  {
    forall w: nat | w < |workers| && (workers[w].Uploading? || workers[w].Uploaded?)
      ensures Made(log + [m], workers[w].id, workers[w].path)
    {
      MadeStays(log, m, workers[w].id, workers[w].path);
    }
    forall a | a in assets ensures Made(log + [m], assets[a].jobId, assets[a].path) {
      MadeStays(log, m, assets[a].jobId, assets[a].path);
    }
  }

  /** Fewer rows, and no worker with a path it did not have. */
  predicate TakesNoMedia(s: State, t: State) {
    && (forall a :: a in t.assets ==> a in s.assets && t.assets[a] == s.assets[a])
    && (forall w: nat :: w < |t.workers| && (t.workers[w].Uploading? || t.workers[w].Uploaded?) ==>
          w < |s.workers| && s.workers[w] == t.workers[w])
  }

  lemma LessMediaStaysTold(log: seq<Moment>, s: State, t: State)
    requires MediaTold(log, s.workers, s.assets) && TakesNoMedia(s, t)
    ensures MediaTold(log, t.workers, t.assets)
  {
  }

  lemma GeneratedIsTold(log: seq<Moment>, s: State, w: nat, e: WorkerStep)
    requires MediaTold(log, s.workers, s.assets) && WorkerEnabled(s, w, e) && e.Generated?
    ensures var t := WorkerNext(s, w, e); MediaTold(log + [Moment(s, OfWorker(w, e))], t.workers, t.assets)
  {
    var m := Moment(s, OfWorker(w, e));
    var x := WorkerNext(s, w, e).workers[w];
    MediaStaysTold(log, m, s.workers, s.assets);
    assert m in log + [m] && Makes(m, x.id, x.path);
  }

  lemma UploadStaysTold(log: seq<Moment>, s: State, w: nat, e: WorkerStep)
    requires MediaTold(log, s.workers, s.assets) && WorkerEnabled(s, w, e) && e.Upload?
    ensures MediaTold(log, WorkerNext(s, w, e).workers, WorkerNext(s, w, e).assets)
  {
  }

  lemma InsertStaysTold(log: seq<Moment>, s: State, w: nat, e: WorkerStep)
    requires MediaTold(log, s.workers, s.assets) && WorkerEnabled(s, w, e) && (e.InsertAsset? || e.InsertAssetError?)
    ensures MediaTold(log, WorkerNext(s, w, e).workers, WorkerNext(s, w, e).assets)
  {
  }

  lemma OtherWorkTakesNoMedia(s: State, w: nat, e: WorkerStep)
    requires WorkerEnabled(s, w, e) && !e.Generated? && !e.Upload? && !e.InsertAsset? && !e.InsertAssetError?
    ensures TakesNoMedia(s, WorkerNext(s, w, e))
  {
  }

  /** The path a worker holds or stores was made in this step, or told before. */
  lemma WorkerMovesMedia(log: seq<Moment>, s: State, w: nat, e: WorkerStep)
    requires MediaTold(log, s.workers, s.assets) && WorkerEnabled(s, w, e)
    ensures var t := WorkerNext(s, w, e); MediaTold(log + [Moment(s, OfWorker(w, e))], t.workers, t.assets)
  {
    var t := WorkerNext(s, w, e);
    if e.Generated? {
      GeneratedIsTold(log, s, w, e);
    } else {
      if e.Upload? {
        UploadStaysTold(log, s, w, e);
      } else if e.InsertAsset? || e.InsertAssetError? {
        InsertStaysTold(log, s, w, e);
      } else {
        OtherWorkTakesNoMedia(s, w, e);
        LessMediaStaysTold(log, s, t);
      }
      MediaStaysTold(log, Moment(s, OfWorker(w, e)), t.workers, t.assets);
    }
  }

  lemma OthersTakeNoMedia(s: State, e: Step)
    requires Enabled(s, e) && !e.OfWorker?
    ensures TakesNoMedia(s, Next(s, e))
  {
    match e
    case OfHandler(h, step) =>
      HandlerFrame(s, h, step);
      assert Next(s, e).assets == s.assets;
    case OfDeleter(d, step) => DeleterFrame(s, d, step);
    case OfSweeper(step) => SweeperFrame(s, step);
    case _ =>
  }

  lemma MediaToldKept(log: seq<Moment>, s: State, e: Step)
    requires MediaTold(log, s.workers, s.assets) && Enabled(s, e)
    ensures MediaTold(log + [Moment(s, e)], Next(s, e).workers, Next(s, e).assets)
  {
    if e.OfWorker? {
      WorkerMovesMedia(log, s, e.w, e.worker);
    } else {
      OthersTakeNoMedia(s, e);
      LessMediaStaysTold(log, s, Next(s, e));
      MediaStaysTold(log, Moment(s, e), Next(s, e).workers, Next(s, e).assets);
    }
  }

  lemma {:induction false} MediaToldAlways(log: seq<Moment>, s: State, steps: seq<Step>)
    requires MediaTold(log, s.workers, s.assets) && ValidRun(s, steps)
    ensures MediaTold(log + Trace(s, steps), After(s, steps).workers, After(s, steps).assets)
    decreases steps
  {
    if steps == [] {
      assert log + Trace(s, steps) == log;
    } else {
      MediaToldKept(log, s, steps[0]);
      MediaToldAlways(log + [Moment(s, steps[0])], Next(s, steps[0]), steps[1..]);
      assert log + Trace(s, steps) == (log + [Moment(s, steps[0])]) + Trace(Next(s, steps[0]), steps[1..]);
    }
  }

  /** Every asset row has the very path under which the provider's media for its job was filed. */
  lemma EveryAssetHasItsMedia(s0: State, steps: seq<Step>, a: nat)
    requires Initial(s0) && ValidRun(s0, steps) && a in After(s0, steps).assets
    ensures var asset := After(s0, steps).assets[a]; Made(Trace(s0, steps), asset.jobId, asset.path)
  {
    assert forall w: nat :: w < |s0.workers| ==> s0.workers[w].Idle?;
    MediaToldAlways([], s0, steps);
    assert [] + Trace(s0, steps) == Trace(s0, steps);
  }
}
