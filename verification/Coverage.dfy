/**
 * Even when ids are delivered twice, no job is stranded: an unfinished one is always with
 * someone who will move it on.
 */
module Coverage {
  import opened Basics
  import opened JobStatuses
  import opened Tables
  import opened Protocol
  import opened ProtocolSafety

  /** A queued job's id is with a handler, in the channel, or with a worker that has not claimed it. */
  predicate HoldsQueued(s: State, p: Holder) {
    match p
    case AtHandler(h) => h in s.handlers
    case AtSlot(i) => i < |s.channel|
    case AtWorker(w) => w < |s.workers| && s.workers[w].Received?
  }

  /** A running job is with a worker that has claimed it and not finished it. */
  predicate HoldsRunning(s: State, p: Holder) {
    p.AtWorker? && p.w < |s.workers| &&
    (s.workers[p.w].Claimed? || s.workers[p.w].Generating? || s.workers[p.w].Uploading?
     || s.workers[p.w].Uploaded? || s.workers[p.w].Finishing?)
  }

  /** `p` holds the unfinished job `id` at the stage its status needs. */
  predicate Covers(s: State, p: Holder, id: string) {
    && HolderId(s, p) == Some(id) && id in s.jobs
    && if s.jobs[id].status.QueuedName? then HoldsQueued(s, p) else HoldsRunning(s, p)
  }

  ghost predicate Covered(s: State) {
    s.up ==> forall id :: Unfinished(s, id) && id !in s.lost ==> exists p :: Covers(s, p, id)
  }

  /** The job was unfinished before, with the same status, and not lost. */
  ghost predicate Unmoved(s: State, t: State, id: string) {
    && id in s.jobs && id in t.jobs && s.jobs[id].status == t.jobs[id].status
    && (id in s.lost ==> id in t.lost) && s.up
  }

  lemma CoverBefore(s: State, t: State, id: string) returns (p: Holder)
    requires Covered(s) && Unmoved(s, t, id) && Unfinished(t, id) && id !in t.lost
    ensures Covers(s, p, id)
  {
    assert Unfinished(s, id);
    p :| Covers(s, p, id);
  }

  lemma ReceiveKeepsCover(s: State, w: nat)
    requires Covered(s) && s.up && WorkerEnabled(s, w, Receive)
    ensures Covered(WorkerNext(s, w, Receive))
  {
    var t := WorkerNext(s, w, Receive);
    forall id | Unfinished(t, id) && id !in t.lost ensures exists p :: Covers(t, p, id) {
      var p := CoverBefore(s, t, id);
      var q := if p == AtSlot(0) then AtWorker(w) else if p.AtSlot? then AtSlot(p.i - 1) else p;
      assert Covers(t, q, id);
    }
  }

  /** The claimed job is now with the worker that claimed it. */
  lemma ClaimedIsCovered(s: State, w: nat)
    requires WorkerEnabled(s, w, Claim) && Claimable(s.jobs, s.workers[w].id)
    ensures Covers(WorkerNext(s, w, Claim), AtWorker(w), s.workers[w].id)
  {
  }

  lemma OthersStayCovered(s: State, w: nat, id: string, p: Holder)
    requires WorkerEnabled(s, w, Claim) && Covers(s, p, id) && Unfinished(s, id)
    requires id == s.workers[w].id ==> !Claimable(s.jobs, id)
    ensures Covers(WorkerNext(s, w, Claim), p, id)
  {
  }

  lemma ClaimKeepsCover(s: State, w: nat)
    requires RowsOk(s.jobs, s.history, s.now) && Covered(s) && s.up && WorkerEnabled(s, w, Claim)
    ensures Covered(WorkerNext(s, w, Claim))
  {
    var t := WorkerNext(s, w, Claim);
    var mine := s.workers[w].id;
    forall id | Unfinished(t, id) && id !in t.lost ensures exists p :: Covers(t, p, id) {
      if id == mine && Claimable(s.jobs, mine) {
        ClaimedIsCovered(s, w);
      } else {
        var p := CoverBefore(s, t, id);
        OthersStayCovered(s, w, id, p);
      }
    }
  }

  /** A worker gives its job up: as finished, or as lost. */
  lemma LettingGoKeepsCover(s: State, t: State, w: nat)
    requires Covered(s) && s.up && w < |s.workers| && !s.workers[w].Idle?
    requires |t.workers| == |s.workers| && t.channel == s.channel && t.handlers == s.handlers
    requires forall v: nat :: v < |s.workers| && v != w ==> t.workers[v] == s.workers[v]
    requires var mine := s.workers[w].id;
      && (mine in t.lost || !Unfinished(t, mine))
      && s.lost <= t.lost
      && (forall id :: id in t.jobs && id != mine ==> id in s.jobs && t.jobs[id] == s.jobs[id])
    ensures Covered(t)
  {
    forall id | Unfinished(t, id) && id !in t.lost ensures exists p :: Covers(t, p, id) {
      var p := CoverBefore(s, t, id);
      assert Covers(t, p, id);
    }
  }

  lemma LosingKeepsCover(s: State, w: nat, e: WorkerStep)
    requires Covered(s) && s.up && WorkerEnabled(s, w, e) && (e.ClaimError? || e.FinishOutcomeError?)
    ensures Covered(WorkerNext(s, w, e))
  {
    LettingGoKeepsCover(s, WorkerNext(s, w, e), w);
  }

  lemma FinishingKeepsCover(s: State, w: nat)
    requires CrewOk(s) && Covered(s) && s.up && WorkerEnabled(s, w, FinishOutcome)
    ensures Covered(WorkerNext(s, w, FinishOutcome))
  {
    var me := s.workers[w];
    assert Driving(me);
    WriteTerminalTouches(s, me.id, me.outcome);
    LettingGoKeepsCover(s, WorkerNext(s, w, FinishOutcome), w);
  }

  lemma WorkingKeepsCover(s: State, w: nat, e: WorkerStep)
    requires Covered(s) && s.up && WorkerEnabled(s, w, e) && !WritesStatus(e) && !e.Receive?
    ensures Covered(WorkerNext(s, w, e))
  {
    var t := WorkerNext(s, w, e);
    forall id | Unfinished(t, id) && id !in t.lost ensures exists p :: Covers(t, p, id) {
      var p := CoverBefore(s, t, id);
      assert Covers(t, p, id);
    }
  }

  lemma WorkerKeepsCover(s: State, w: nat, e: WorkerStep)
    requires RowsOk(s.jobs, s.history, s.now) && CrewOk(s) && Covered(s) && s.up && WorkerEnabled(s, w, e)
    ensures Covered(WorkerNext(s, w, e))
  {
    match e
    case Receive => ReceiveKeepsCover(s, w);
    case Claim => ClaimKeepsCover(s, w);
    case ClaimError(_) => LosingKeepsCover(s, w, e);
    case FinishOutcome => FinishingKeepsCover(s, w);
    case FinishOutcomeError(_) => LosingKeepsCover(s, w, e);
    case _ => WorkingKeepsCover(s, w, e);
  }

  lemma CreateKeepsCover(s: State, h: nat, e: HandlerStep)
    requires Covered(s) && s.up && HandlerEnabled(s, h, e) && e.Create?
    ensures Covered(HandlerNext(s, h, e))
  {
    var t := HandlerNext(s, h, e);
    forall id | Unfinished(t, id) && id !in t.lost ensures exists p :: Covers(t, p, id) {
      if id == e.id {
        assert Covers(t, AtHandler(h), id);
      } else {
        var p := CoverBefore(s, t, id);
        assert Covers(t, p, id);
      }
    }
  }

  lemma EnqueueKeepsCover(s: State, h: nat)
    requires Covered(s) && s.up && HandlerEnabled(s, h, Enqueue)
    ensures Covered(HandlerNext(s, h, Enqueue))
  {
    var t := HandlerNext(s, h, Enqueue);
    forall id | Unfinished(t, id) && id !in t.lost ensures exists p :: Covers(t, p, id) {
      var p := CoverBefore(s, t, id);
      var q := if p == AtHandler(h) && h !in t.handlers then AtSlot(|s.channel|) else p;
      assert Covers(t, q, id);
    }
  }

  /** A handler gives its job up: as refused, or as lost. */
  lemma DroppingKeepsCover(s: State, h: nat, e: HandlerStep)
    requires CrewOk(s) && Covered(s) && s.up && HandlerEnabled(s, h, e) && !e.Create? && !e.Enqueue?
    ensures Covered(HandlerNext(s, h, e))
  {
    var t := HandlerNext(s, h, e);
    var mine := s.handlers[h].id;
    WriteTerminalTouches(s, mine, QUEUE_FULL);
    forall id | Unfinished(t, id) && id !in t.lost ensures exists p :: Covers(t, p, id) {
      var p := CoverBefore(s, t, id);
      assert Covers(t, p, id);
    }
  }

  lemma HandlerKeepsCover(s: State, h: nat, e: HandlerStep)
    requires CrewOk(s) && Covered(s) && s.up && HandlerEnabled(s, h, e)
    ensures Covered(HandlerNext(s, h, e))
  {
    match e
    case Create(_, _, _) => CreateKeepsCover(s, h, e);
    case Enqueue => EnqueueKeepsCover(s, h);
    case _ => DroppingKeepsCover(s, h, e);
  }

  /** Rows may leave or be hidden, and ids may come into the channel. */
  lemma BystandersKeepCover(s: State, t: State)
    requires Covered(s) && s.up && t.workers == s.workers && t.handlers == s.handlers && s.channel <= t.channel
    requires t.lost == s.lost && forall id :: id in t.jobs ==> id in s.jobs && t.jobs[id].status == s.jobs[id].status
    ensures Covered(t)
  {
    forall id | Unfinished(t, id) && id !in t.lost ensures exists p :: Covers(t, p, id) {
      var p := CoverBefore(s, t, id);
      assert Covers(t, p, id);
    }
  }

  lemma CleanersKeepCover(s: State, d: nat, e: DeleterStep, f: SweeperStep)
    requires Covered(s) && s.up
    ensures DeleterEnabled(s, d, e) ==> Covered(DeleterNext(s, d, e))
    ensures SweeperEnabled(s, f) ==> Covered(SweeperNext(s, f))
  {
    if DeleterEnabled(s, d, e) { BystandersKeepCover(s, DeleterNext(s, d, e)); }
    if SweeperEnabled(s, f) { BystandersKeepCover(s, SweeperNext(s, f)); }
  }

  lemma HidingKeepsCover(s: State, id: string, user: nat, hidden: bool)
    requires Covered(s) && s.up
    ensures Covered(s.(jobs := WithHidden(s.jobs, id, user, hidden)))
  {
    BystandersKeepCover(s, s.(jobs := WithHidden(s.jobs, id, user, hidden)));
  }

  lemma TickKeepsCover(s: State, now: int)
    requires Covered(s)
    ensures Covered(s.(now := now))
  {
    if s.up {
      BystandersKeepCover(s, s.(now := now));
    }
  }

  lemma CoverKept(s: State, e: Step)
    requires Sound(s) && Covered(s) && Enabled(s, e)
    ensures Covered(Next(s, e))
  {
    match e
    case OfHandler(h, step) => HandlerKeepsCover(s, h, step);
    case OfWorker(w, step) => WorkerKeepsCover(s, w, step);
    case OfDeleter(d, step) => CleanersKeepCover(s, d, step, ReadExpired);
    case OfSweeper(step) => CleanersKeepCover(s, 0, EndDelete, step);
    case Hide(id, user, hidden) => HidingKeepsCover(s, id, user, hidden);
    case Redeliver(_) => BystandersKeepCover(s, Next(s, e));
    case Tick(_) => TickKeepsCover(s, Next(s, e).now);
    case Crash =>
    case Restart => RestartLeavesNoneActive(s);
  }

  lemma {:induction false} CoveredAlways(s: State, steps: seq<Step>)
    requires Sound(s) && Covered(s) && ValidRun(s, steps)
    ensures Covered(After(s, steps))
    decreases steps
  {
    if steps != [] {
      SoundKept(s, steps[0]);
      CoverKept(s, steps[0]);
      CoveredAlways(Next(s, steps[0]), steps[1..]);
    }
  }
}
