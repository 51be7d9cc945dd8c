/** What the broadcast status events say about the rows, under every interleaving. */
module ProtocolEvents {
  import opened Basics
  import opened JobStatuses
  import opened Tables
  import opened Protocol
  import opened ProtocolSafety

  /** The last status written for the job is `status`, and a surviving row reads back as it. */
  ghost predicate Committed(s: State, id: string, status: JobStatus) {
    && id in s.history && |s.history[id]| == 3 && s.history[id][2] == NameOf(status)
    && (id in s.jobs ==> StatusOf(s.jobs[id]) == status)
  }

  ghost predicate SentIsTrue(s: State, i: nat)
    requires i < |s.sent|
  {
    var e := s.sent[i];
    && e.id in s.history && |s.history[e.id]| >= 2 && s.history[e.id][1].RunningName?
    && (e.status.Running? || ((e.status.Succeeded? || e.status.Failed?) && Committed(s, e.id, e.status)))
  }

  /** A job's events are at most one `running`, then at most one terminal status. */
  ghost predicate SentInOrder(sent: seq<Event>) {
    forall i: nat, j: nat :: i < j < |sent| && sent[i].id == sent[j].id ==>
      sent[i].status.Running? && !sent[j].status.Running?
  }

  /** What has not been sent yet, judged by where the worker is. */
  ghost predicate WorkerEventsOk(s: State, worker: Worker) {
    match worker
    case Idle => true
    case Received(id) => true
    case Claimed(id) => forall i: nat :: i < |s.sent| ==> s.sent[i].id != id
    case Reporting(id, outcome) =>
      Committed(s, id, outcome) && forall i: nat :: i < |s.sent| && s.sent[i].id == id ==> s.sent[i].status.Running?
    case _ => forall i: nat :: i < |s.sent| && s.sent[i].id == worker.id ==> s.sent[i].status.Running?
  }

  ghost predicate EventsOk(s: State) {
    && (forall i: nat :: i < |s.sent| ==> SentIsTrue(s, i))
    && SentInOrder(s.sent)
    && (forall w: nat :: w < |s.workers| ==> WorkerEventsOk(s, s.workers[w]))
  }

  /** Events stay true of `t`: histories only grow, and finished rows stay. */
  ghost predicate CommitsStay(s: State, t: State) {
    && t.sent == s.sent
    && (forall id :: id in s.history && |s.history[id]| >= 2 ==> id in t.history && s.history[id] <= t.history[id])
    && (forall id :: id in s.history && |s.history[id]| == 3 ==> id in t.history && t.history[id] == s.history[id])
    && (forall id :: id in s.history && |s.history[id]| == 3 && id in t.jobs ==>
          id in s.jobs && StatusOf(t.jobs[id]) == StatusOf(s.jobs[id]))
  }

  lemma CommitsStayTrue(s: State, t: State)
    requires EventsOk(s) && CommitsStay(s, t)
    requires forall w: nat :: w < |t.workers| ==> WorkerEventsOk(t, t.workers[w])
    ensures EventsOk(t)
  {
    forall i: nat | i < |t.sent| ensures SentIsTrue(t, i) {
      assert SentIsTrue(s, i);
    }
  }

  /** A job that was never claimed has sent nothing. */
  lemma UnclaimedIsSilent(s: State, id: string)
    requires EventsOk(s) && !WasClaimed(s.history, id)
    ensures forall i: nat :: i < |s.sent| ==> s.sent[i].id != id
  {
    forall i: nat | i < |s.sent| ensures s.sent[i].id != id {
      assert SentIsTrue(s, i);
    }
  }

  lemma WorkerEventsStay(s: State, t: State, worker: Worker)
    requires CommitsStay(s, t) && WorkerEventsOk(s, worker)
    ensures WorkerEventsOk(t, worker)
  {
  }

  /** Worker `w` becomes `x`; nothing is sent. */
  lemma WorkerMovedSilently(s: State, t: State, w: nat, x: Worker)
    requires EventsOk(s) && CommitsStay(s, t)
    requires w < |s.workers| && t.workers == s.workers[w := x] && WorkerEventsOk(t, x)
    ensures EventsOk(t)
  {
    forall v: nat | v < |t.workers| ensures WorkerEventsOk(t, t.workers[v]) {
      assert WorkerEventsOk(s, s.workers[v]);
      if v != w { WorkerEventsStay(s, t, s.workers[v]); }
    }
    CommitsStayTrue(s, t);
  }

  lemma SameWorkersSilently(s: State, t: State)
    requires EventsOk(s) && CommitsStay(s, t) && t.workers == s.workers
    ensures EventsOk(t)
  {
    forall v: nat | v < |t.workers| ensures WorkerEventsOk(t, t.workers[v]) {
      WorkerEventsStay(s, t, s.workers[v]);
    }
    CommitsStayTrue(s, t);
  }

  /** Sending one more true event for the job worker `w` holds. */
  lemma SendingKeepsEvents(s: State, w: nat, status: JobStatus, x: Worker)
    requires EventsOk(s) && CrewOk(s) && w < |s.workers| && Driving(s.workers[w])
    requires var id := s.workers[w].id; var t := Move(Broadcast(s, id, status), w, x);
      SentIsTrue(t, |s.sent|) && WorkerEventsOk(t, x)
    requires forall i: nat :: i < |s.sent| && s.sent[i].id == s.workers[w].id ==>
      s.sent[i].status.Running? && !status.Running?
    ensures EventsOk(Move(Broadcast(s, s.workers[w].id, status), w, x))
  {
    var t := Move(Broadcast(s, s.workers[w].id, status), w, x);
    forall i: nat | i < |t.sent| ensures SentIsTrue(t, i) {
      if i < |s.sent| { assert SentIsTrue(s, i); }
    }
    forall v: nat | v < |t.workers| ensures WorkerEventsOk(t, t.workers[v]) {
      assert WorkerEventsOk(s, s.workers[v]);
    }
  }

  lemma RunningCommitsStay(s: State, id: string)
    requires RowsOk(s.jobs, s.history, s.now)
    ensures CommitsStay(s, WriteRunning(s, id))
  {
  }

  lemma TerminalCommitsStay(s: State, id: string, status: JobStatus)
    requires RowsOk(s.jobs, s.history, s.now)
    ensures CommitsStay(s, WriteTerminal(s, id, status))
  {
  }

  lemma HandlerCommitsStay(s: State, h: nat, e: HandlerStep)
    requires RowsOk(s.jobs, s.history, s.now) && HandlerEnabled(s, h, e)
    ensures CommitsStay(s, HandlerNext(s, h, e)) && HandlerNext(s, h, e).workers == s.workers
  {
    if h in s.handlers { TerminalCommitsStay(s, s.handlers[h].id, QUEUE_FULL); }
  }

  lemma ReceiveKeepsEvents(s: State, w: nat)
    requires EventsOk(s) && WorkerEnabled(s, w, Receive)
    ensures EventsOk(WorkerNext(s, w, Receive))
  {
    WorkerMovedSilently(s, WorkerNext(s, w, Receive), w, Received(s.channel[0]));
  }

  lemma ClaimKeepsEvents(s: State, w: nat)
    requires RowsOk(s.jobs, s.history, s.now) && EventsOk(s) && WorkerEnabled(s, w, Claim)
    ensures EventsOk(WorkerNext(s, w, Claim))
  {
    var t := WorkerNext(s, w, Claim);
    var id := s.workers[w].id;
    RunningCommitsStay(s, id);
    WriteRunningGrows(s, id);
    if Claimable(s.jobs, id) {
      UnclaimedIsSilent(s, id);
    }
    WorkerMovedSilently(s, t, w, t.workers[w]);
  }

  lemma ClaimErrorKeepsEvents(s: State, w: nat, applied: bool)
    requires RowsOk(s.jobs, s.history, s.now) && EventsOk(s) && WorkerEnabled(s, w, ClaimError(applied))
    ensures EventsOk(WorkerNext(s, w, ClaimError(applied)))
  {
    RunningCommitsStay(s, s.workers[w].id);
    WorkerMovedSilently(s, WorkerNext(s, w, ClaimError(applied)), w, Idle);
  }

  lemma FinishCommits(s: State, id: string, status: JobStatus)
    requires RowsOk(s.jobs, s.history, s.now) && WasClaimed(s.history, id) && Finishable(s.jobs, id)
    ensures Committed(WriteTerminal(s, id, status), id, status)
  {
    StatusReadsBack(status);
  }

  lemma FinishKeepsEvents(s: State, w: nat, x: Worker)
    requires RowsOk(s.jobs, s.history, s.now) && CrewOk(s) && EventsOk(s)
    requires w < |s.workers| && s.workers[w].Finishing?
    requires var me := s.workers[w]; x.Idle? || (Finishable(s.jobs, me.id) && x == Reporting(me.id, me.outcome))
    ensures EventsOk(Move(WriteTerminal(s, s.workers[w].id, s.workers[w].outcome), w, x))
  {
    var me := s.workers[w];
    assert Driving(me) && WorkerEventsOk(s, me);
    TerminalCommitsStay(s, me.id, me.outcome);
    if Finishable(s.jobs, me.id) { FinishCommits(s, me.id, me.outcome); }
    WorkerMovedSilently(s, Move(WriteTerminal(s, me.id, me.outcome), w, x), w, x);
  }

  lemma FinishStepKeepsEvents(s: State, w: nat, e: WorkerStep)
    requires RowsOk(s.jobs, s.history, s.now) && CrewOk(s) && EventsOk(s) && WorkerEnabled(s, w, e)
    requires e.FinishOutcome? || e.FinishOutcomeError?
    ensures EventsOk(WorkerNext(s, w, e))
  {
    var t := WorkerNext(s, w, e);
    var me := s.workers[w];
    if e.FinishOutcome? || e.applied {
      FinishKeepsEvents(s, w, t.workers[w]);
      SameWorkersSilently(Move(WriteTerminal(s, me.id, me.outcome), w, t.workers[w]), t);
    } else {
      WorkerMovedSilently(s, t, w, Idle);
    }
  }

  lemma PublishKeepsEvents(s: State, w: nat, e: WorkerStep)
    requires RowsOk(s.jobs, s.history, s.now) && CrewOk(s) && EventsOk(s) && WorkerEnabled(s, w, e)
    requires e.PublishRunning? || e.PublishOutcome?
    ensures EventsOk(WorkerNext(s, w, e))
  {
    var me := s.workers[w];
    assert Driving(me) && WorkerEventsOk(s, me);
    if e.PublishRunning? {
      SendingKeepsEvents(s, w, Running, Generating(me.id));
    } else {
      SendingKeepsEvents(s, w, me.outcome, Idle);
    }
  }

  /** Rows, histories and events stay. */
  lemma SilentlyTheSame(s: State, t: State)
    requires t.sent == s.sent && t.history == s.history && t.jobs == s.jobs
    ensures CommitsStay(s, t)
  {
  }

  lemma StoringKeepsEvents(s: State, w: nat, e: WorkerStep)
    requires EventsOk(s) && WorkerEnabled(s, w, e)
    requires Stores(e) || e.Generated? || e.GenerationFailed?
    ensures EventsOk(WorkerNext(s, w, e))
  {
    var t := WorkerNext(s, w, e);
    assert WorkerEventsOk(s, s.workers[w]);
    SilentlyTheSame(s, t);
    WorkerMovedSilently(s, t, w, t.workers[w]);
  }

  lemma WorkerKeepsEvents(s: State, w: nat, e: WorkerStep)
    requires RowsOk(s.jobs, s.history, s.now) && CrewOk(s) && EventsOk(s) && WorkerEnabled(s, w, e)
    ensures EventsOk(WorkerNext(s, w, e))
  {
    match e
    case Receive => ReceiveKeepsEvents(s, w);
    case Claim => ClaimKeepsEvents(s, w);
    case ClaimError(applied) => ClaimErrorKeepsEvents(s, w, applied);
    case FinishOutcome => FinishStepKeepsEvents(s, w, e);
    case FinishOutcomeError(_) => FinishStepKeepsEvents(s, w, e);
    case PublishRunning => PublishKeepsEvents(s, w, e);
    case PublishOutcome => PublishKeepsEvents(s, w, e);
    case _ => StoringKeepsEvents(s, w, e);
  }

  lemma CleanersKeepEvents(s: State, d: nat, e: DeleterStep, f: SweeperStep)
    requires RowsOk(s.jobs, s.history, s.now) && EventsOk(s)
    ensures DeleterEnabled(s, d, e) ==> EventsOk(DeleterNext(s, d, e))
    ensures SweeperEnabled(s, f) ==> EventsOk(SweeperNext(s, f))
  {
    if DeleterEnabled(s, d, e) { SameWorkersSilently(s, DeleterNext(s, d, e)); }
    if SweeperEnabled(s, f) { SameWorkersSilently(s, SweeperNext(s, f)); }
  }

  lemma HidingKeepsEvents(s: State, id: string, user: nat, hidden: bool)
    requires EventsOk(s)
    ensures EventsOk(s.(jobs := WithHidden(s.jobs, id, user, hidden)))
  {
    SameWorkersSilently(s, s.(jobs := WithHidden(s.jobs, id, user, hidden)));
  }

  lemma EventsKept(s: State, e: Step)
    requires Sound(s) && EventsOk(s) && Enabled(s, e)
    ensures EventsOk(Next(s, e))
  {
    match e
    case OfHandler(h, step) =>
      HandlerCommitsStay(s, h, step);
      SameWorkersSilently(s, HandlerNext(s, h, step));
    case OfWorker(w, step) => WorkerKeepsEvents(s, w, step);
    case OfDeleter(d, step) => CleanersKeepEvents(s, d, step, ReadExpired);
    case OfSweeper(step) => CleanersKeepEvents(s, 0, EndDelete, step);
    case Tick(_) => SameWorkersSilently(s, Next(s, e));
    case Redeliver(_) => SameWorkersSilently(s, Next(s, e));
    case Hide(id, user, hidden) => HidingKeepsEvents(s, id, user, hidden);
    case Crash =>
    case Restart => assert forall w: nat :: w < WORKER_COUNT ==> Restarted(s).workers[w].Idle?;
  }
}
