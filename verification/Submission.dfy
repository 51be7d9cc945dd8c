/** The bounded channel serves jobs in order, and a job that never ran says why. */
module Submission {
  import opened Basics
  import opened JobStatuses
  import opened Tables
  import opened Protocol
  import opened ProtocolSafety
  import opened ProtocolMedia
  import opened JobGuarantees

  // ---------------------------------------------------------------- first in, first out

  /** The id a step puts into the channel while fewer than 64 wait: a handler's, or one delivered again. */
  function PutBy(s: State, e: Step): seq<string>
    requires Enabled(s, e)
  {
    if e.OfHandler? && e.handler.Enqueue? && |s.channel| < QUEUE_CAPACITY then [s.handlers[e.h].id]
    else if e.Redeliver? then [e.id] else []
  }

  /** The id a step hands to a worker. */
  function TakenBy(s: State, e: Step): seq<string>
    requires Enabled(s, e)
  {
    if e.OfWorker? && e.worker.Receive? then [Next(s, e).workers[e.w].id] else []
  }

  function Put(s: State, steps: seq<Step>): seq<string>
    requires ValidRun(s, steps)
    decreases steps
  {
    if steps == [] then [] else PutBy(s, steps[0]) + Put(Next(s, steps[0]), steps[1..])
  }

  function Taken(s: State, steps: seq<Step>): seq<string>
    requires ValidRun(s, steps)
    decreases steps
  {
    if steps == [] then [] else TakenBy(s, steps[0]) + Taken(Next(s, steps[0]), steps[1..])
  }

  lemma HandlerMovesQueue(s: State, h: nat, e: HandlerStep)
    requires s.up && HandlerEnabled(s, h, e)
    ensures HandlerNext(s, h, e).channel == s.channel + PutBy(s, OfHandler(h, e))
  {
  }

  lemma WorkerMovesQueue(s: State, w: nat, e: WorkerStep)
    requires s.up && WorkerEnabled(s, w, e)
    ensures s.channel == TakenBy(s, OfWorker(w, e)) + WorkerNext(s, w, e).channel
  {
  }

  lemma StepMovesQueue(s: State, e: Step)
    requires Enabled(s, e) && !e.Crash?
    ensures s.channel + PutBy(s, e) == TakenBy(s, e) + Next(s, e).channel
  {
    match e
    case OfHandler(h, step) => HandlerMovesQueue(s, h, step);
    case OfWorker(w, step) => WorkerMovesQueue(s, w, step);
    case _ =>
  }

  /**
   * Nothing is lost, repeated or overtaken in the channel: over any run of one process, what waited plus what was
   * put in is what was handed out plus what still waits, in this order.
   */
  lemma {:induction false} QueueIsFifo(s: State, steps: seq<Step>)
    requires ValidRun(s, steps) && Crash !in steps
    ensures s.channel + Put(s, steps) == Taken(s, steps) + After(s, steps).channel
    decreases steps
  {
    if steps != [] {
      var t := Next(s, steps[0]);
      var rest := steps[1..];
      assert steps[0] in steps;
      StepMovesQueue(s, steps[0]);
      QueueIsFifo(t, rest);
      Regroup(s.channel, PutBy(s, steps[0]), Put(t, rest), TakenBy(s, steps[0]), t.channel, Taken(t, rest), After(t, rest).channel);
    }
  }

  lemma Regroup(c: seq<string>, p: seq<string>, ps: seq<string>, t: seq<string>, c1: seq<string>, ts: seq<string>, c2: seq<string>)
    requires c + p == t + c1 && c1 + ps == ts + c2
    ensures c + (p + ps) == (t + ts) + c2
  {
    assert c + (p + ps) == (c + p) + ps;
    assert (t + c1) + ps == t + (c1 + ps);
    assert t + (ts + c2) == (t + ts) + c2;
  }

  // ---------------------------------------------------------------- why a job never ran

  predicate Says(row: Row, status: JobStatus) {
    row.errorCode == CodeColumn(status) && row.errorMessage == MessageColumn(status)
  }

  predicate NeverRan(h: seq<StatusName>) { h == [QueuedName, FailedName] }

  ghost predicate ReasonsOk(jobs: Jobs, history: Histories) {
    forall id :: id in jobs && id in history && NeverRan(history[id]) ==> Says(jobs[id], QUEUE_FULL) || Says(jobs[id], INTERRUPTED)
  }

  lemma RunningKeepsReasons(s: State, id: string)
    requires RowsOk(s.jobs, s.history, s.now) && ReasonsOk(s.jobs, s.history)
    ensures ReasonsOk(WriteRunning(s, id).jobs, WriteRunning(s, id).history)
  {
    if Claimable(s.jobs, id) {
      var h := s.history[id] + [RunningName];
      assert h[|h| - 1].RunningName?;
      assert !NeverRan(h);
    }
  }

  /** Only a refusal may finish a job that has not run. */
  lemma TerminalKeepsReasons(s: State, id: string, status: JobStatus)
    requires RowsOk(s.jobs, s.history, s.now) && ReasonsOk(s.jobs, s.history)
    requires status == QUEUE_FULL || WasClaimed(s.history, id)
    ensures ReasonsOk(WriteTerminal(s, id, status).jobs, WriteTerminal(s, id, status).history)
  {
    if id in s.history {
      assert Legal(s.history[id]);
    }
  }

  lemma HandlerKeepsReasons(s: State, h: nat, e: HandlerStep)
    requires RowsOk(s.jobs, s.history, s.now) && ReasonsOk(s.jobs, s.history) && HandlerEnabled(s, h, e)
    ensures ReasonsOk(HandlerNext(s, h, e).jobs, HandlerNext(s, h, e).history)
  {
    if h in s.handlers {
      TerminalKeepsReasons(s, s.handlers[h].id, QUEUE_FULL);
    }
  }

  lemma WorkerKeepsReasons(s: State, w: nat, e: WorkerStep)
    requires RowsOk(s.jobs, s.history, s.now) && CrewOk(s) && ReasonsOk(s.jobs, s.history) && WorkerEnabled(s, w, e)
    ensures ReasonsOk(WorkerNext(s, w, e).jobs, WorkerNext(s, w, e).history)
  {
    var me := s.workers[w];
    if me.Received? {
      RunningKeepsReasons(s, me.id);
    }
    if me.Finishing? {
      assert Driving(me);
      TerminalKeepsReasons(s, me.id, me.outcome);
    }
  }

  lemma CleanersKeepReasons(s: State, d: nat, e: DeleterStep, f: SweeperStep)
    requires ReasonsOk(s.jobs, s.history)
    ensures DeleterEnabled(s, d, e) ==> ReasonsOk(DeleterNext(s, d, e).jobs, DeleterNext(s, d, e).history)
    ensures SweeperEnabled(s, f) ==> ReasonsOk(SweeperNext(s, f).jobs, SweeperNext(s, f).history)
  {
  }

  lemma HidingKeepsReasons(jobs: Jobs, history: Histories, id: string, user: nat, hidden: bool)
    requires ReasonsOk(jobs, history)
    ensures ReasonsOk(WithHidden(jobs, id, user, hidden), history)
  {
  }

  lemma RestartKeepsReasons(s: State)
    requires RowsOk(s.jobs, s.history, s.now) && ReasonsOk(s.jobs, s.history)
    ensures ReasonsOk(Restarted(s).jobs, Restarted(s).history)
  {
    var t := Restarted(s);
    forall id | id in t.jobs && id in t.history && NeverRan(t.history[id])
      ensures Says(t.jobs[id], QUEUE_FULL) || Says(t.jobs[id], INTERRUPTED)
    {
      if !Active(s.jobs[id]) {
        assert t.history[id] == s.history[id];
      }
    }
  }

  lemma StepKeepsReasons(s: State, e: Step)
    requires RowsOk(s.jobs, s.history, s.now) && CrewOk(s) && ReasonsOk(s.jobs, s.history) && Enabled(s, e)
    ensures ReasonsOk(Next(s, e).jobs, Next(s, e).history)
  {
    match e
    case OfHandler(h, step) => HandlerKeepsReasons(s, h, step);
    case OfWorker(w, step) => WorkerKeepsReasons(s, w, step);
    case OfDeleter(d, step) => CleanersKeepReasons(s, d, step, ReadExpired);
    case OfSweeper(step) => CleanersKeepReasons(s, 0, EndDelete, step);
    case Hide(id, user, hidden) => HidingKeepsReasons(s.jobs, s.history, id, user, hidden);
    case Restart => RestartKeepsReasons(s);
    case _ =>
  }

  lemma {:induction false} RunKeepsReasons(s: State, steps: seq<Step>)
    requires Sound(s) && ReasonsOk(s.jobs, s.history) && ValidRun(s, steps)
    ensures ReasonsOk(After(s, steps).jobs, After(s, steps).history)
    decreases steps
  {
    if steps != [] {
      SoundKept(s, steps[0]);
      StepKeepsReasons(s, steps[0]);
      RunKeepsReasons(Next(s, steps[0]), steps[1..]);
    }
  }

  lemma SaysReadsBack(row: Row, status: JobStatus)
    requires row.status.FailedName? && Says(row, status) && status.Failed?
    ensures StatusOf(row) == status
  {
    StatusReadsBack(status);
  }

  /**
   * In every reachable state, a job that failed without having run was refused by a full queue or cut off by a restart,
   * and its row says which.
   */
  lemma NeverRanForAReason(s0: State, steps: seq<Step>, id: string)
    requires Initial(s0) && ValidRun(s0, steps)
    requires id in After(s0, steps).jobs && id in After(s0, steps).history && NeverRan(After(s0, steps).history[id])
    ensures StatusOf(After(s0, steps).jobs[id]) == QUEUE_FULL || StatusOf(After(s0, steps).jobs[id]) == INTERRUPTED
  {
    InitialIsSafe(s0);
    RunKeepsReasons(s0, steps);
    Reaches(s0, steps);
    var row := After(s0, steps).jobs[id];
    SaysReadsBack(row, if Says(row, QUEUE_FULL) then QUEUE_FULL else INTERRUPTED);
  }
}
