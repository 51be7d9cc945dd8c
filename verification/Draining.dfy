/**
 * Liveness: once submissions stop, the handlers and workers can take only a
 * bounded number of steps, and when none is left every job has finished.
 */
module Draining {
  import opened Basics
  import opened JobStatuses
  import opened Tables
  import opened Protocol
  import opened ProtocolSafety
  import opened Coverage
  import opened JobGuarantees

  function WorkerWeight(worker: Worker): nat {
    match worker
    case Idle => 0
    case Received(_) => 9
    case Claimed(_) => 8
    case Generating(_) => 7
    case Uploading(_, _) => 6
    case Uploaded(_, _) => 5
    case Finishing(_, _) => 4
    case Reporting(_, _) => 3
  }

  function Weights(workers: seq<Worker>): nat {
    if workers == [] then 0 else WorkerWeight(workers[0]) + Weights(workers[1..])
  }

  function Inserts(handlers: map<nat, Handler>): set<nat> {
    set h | h in handlers && handlers[h].Inserted?
  }

  /** Work left: each job weighs less the further it has come. */
  function Measure(s: State): nat {
    |s.handlers| + 10 * |Inserts(s.handlers)| + 10 * |s.channel| + Weights(s.workers)
  }

  /** A step that moves some job on. */
  predicate Advances(e: Step) {
    e.OfWorker? || (e.OfHandler? && !e.handler.Create?)
  }

  /** No new submissions, no crash, nothing delivered again. */
  predicate Quiet(e: Step) {
    !(e.OfHandler? && e.handler.Create?) && !e.Redeliver? && !e.Crash? && !e.Restart?
  }

  function AdvanceCount(steps: seq<Step>): nat {
    if steps == [] then 0 else (if Advances(steps[0]) then 1 else 0) + AdvanceCount(steps[1..])
  }

  lemma {:induction false} WeightsUpdate(workers: seq<Worker>, w: nat, x: Worker)
    requires w < |workers|
    ensures Weights(workers[w := x]) + WorkerWeight(workers[w]) == Weights(workers) + WorkerWeight(x)
    decreases workers
  {
    if w == 0 {
      assert workers[w := x][1..] == workers[1..];
    } else {
      assert workers[w := x][1..] == workers[1..][w - 1 := x];
      WeightsUpdate(workers[1..], w - 1, x);
    }
  }

  lemma ReceiveLightens(s: State, w: nat)
    requires WorkerEnabled(s, w, Receive)
    ensures Measure(WorkerNext(s, w, Receive)) < Measure(s)
  {
    WeightsUpdate(s.workers, w, Received(s.channel[0]));
  }

  /** The worker's weight falls and nothing else that weighs changes. */
  lemma WorkLightens(s: State, w: nat, e: WorkerStep)
    requires WorkerEnabled(s, w, e) && !e.Receive?
    ensures var t := WorkerNext(s, w, e);
      && t.handlers == s.handlers && t.channel == s.channel && t.workers == s.workers[w := t.workers[w]]
      && WorkerWeight(t.workers[w]) < WorkerWeight(s.workers[w])
  {
  }

  lemma WorkerStepLightens(s: State, w: nat, e: WorkerStep)
    requires WorkerEnabled(s, w, e)
    ensures Measure(WorkerNext(s, w, e)) < Measure(s)
  {
    if e.Receive? {
      ReceiveLightens(s, w);
    } else {
      WorkLightens(s, w, e);
      WeightsUpdate(s.workers, w, WorkerNext(s, w, e).workers[w]);
    }
  }

  lemma HandlerLeaves(handlers: map<nat, Handler>, h: nat)
    requires h in handlers
    ensures |handlers - {h}| == |handlers| - 1
    ensures Inserts(handlers - {h}) == Inserts(handlers) - {h}
    ensures |Inserts(handlers - {h})| == |Inserts(handlers)| - if handlers[h].Inserted? then 1 else 0
  {
    var rest := handlers - {h};
    assert rest.Keys == handlers.Keys - {h};
    assert |rest| == |rest.Keys| && |handlers| == |handlers.Keys|;
  }

  lemma HandlerRefused(handlers: map<nat, Handler>, h: nat, id: string)
    requires h in handlers && handlers[h].Inserted?
    ensures |handlers[h := Refused(id)]| == |handlers|
    ensures |Inserts(handlers[h := Refused(id)])| == |Inserts(handlers)| - 1
  {
    var after := handlers[h := Refused(id)];
    assert after.Keys == handlers.Keys;
    assert |after| == |after.Keys| && |handlers| == |handlers.Keys|;
    assert Inserts(after) == Inserts(handlers) - {h};
  }

  lemma HandlerStepLightens(s: State, h: nat, e: HandlerStep)
    requires HandlerEnabled(s, h, e) && !e.Create?
    ensures Measure(HandlerNext(s, h, e)) < Measure(s)
  {
    HandlerLeaves(s.handlers, h);
    if e.Enqueue? {
      HandlerRefused(s.handlers, h, s.handlers[h].id);
    }
  }

  lemma CleanersAddNothing(s: State, d: nat, e: DeleterStep, f: SweeperStep)
    ensures DeleterEnabled(s, d, e) ==> Measure(DeleterNext(s, d, e)) == Measure(s)
    ensures SweeperEnabled(s, f) ==> Measure(SweeperNext(s, f)) == Measure(s)
  {
  }

  lemma QuietStep(s: State, e: Step)
    requires Enabled(s, e) && Quiet(e)
    ensures Measure(Next(s, e)) + (if Advances(e) then 1 else 0) <= Measure(s)
  {
    match e
    case OfHandler(h, step) => HandlerStepLightens(s, h, step);
    case OfWorker(w, step) => WorkerStepLightens(s, w, step);
    case OfDeleter(d, step) => CleanersAddNothing(s, d, step, ReadExpired);
    case OfSweeper(step) => CleanersAddNothing(s, 0, EndDelete, step);
    case _ =>
  }

  /** However handlers and workers are scheduled, they take at most `Measure(s)` steps between them. */
  lemma {:induction false} AdvancesAreBounded(s: State, steps: seq<Step>)
    requires ValidRun(s, steps) && forall e :: e in steps ==> Quiet(e)
    ensures AdvanceCount(steps) + Measure(After(s, steps)) <= Measure(s)
    decreases steps
  {
    if steps != [] {
      assert steps[0] in steps;
      QuietStep(s, steps[0]);
      AdvancesAreBounded(Next(s, steps[0]), steps[1..]);
    }
  }

  lemma {:induction false} FreshKey(keys: set<nat>) returns (key: nat)
    ensures forall k :: k in keys ==> k < key
    decreases keys
  {
    key := 0;
    if keys != {} {
      var k :| k in keys;
      var rest := FreshKey(keys - {k});
      key := if k < rest then rest else k + 1;
      assert keys == (keys - {k}) + {k};
    }
  }

  /** A worker holding a job can always take its next step. */
  lemma BusyWorkerCanStep(s: State, w: nat) returns (e: WorkerStep)
    requires w < |s.workers| && !s.workers[w].Idle?
    ensures WorkerEnabled(s, w, e)
  {
    match s.workers[w]
    case Received(_) => e := Claim;
    case Claimed(_) => e := PublishRunning;
    case Generating(_) => e := GenerationFailed(Internal, ErrInternal);
    case Uploading(_, _) => e := Upload;
    case Uploaded(_, _) =>
      var key := FreshKey(s.assets.Keys);
      e := InsertAsset(key);
    case Finishing(_, _) => e := FinishOutcome;
    case Reporting(_, _) => e := PublishOutcome;
  }

  lemma HolderCanAdvance(s: State, p: Holder) returns (e: Step)
    requires Shape(s) && s.up && HolderId(s, p).Some?
    ensures Advances(e) && Enabled(s, e)
  {
    match p
    case AtHandler(h) =>
      e := OfHandler(h, if s.handlers[h].Inserted? then Enqueue else FinishRefused);
    case AtSlot(i) =>
      if s.workers[0].Idle? {
        e := OfWorker(0, Receive);
      } else {
        var step := BusyWorkerCanStep(s, 0);
        e := OfWorker(0, step);
      }
    case AtWorker(w) =>
      var step := BusyWorkerCanStep(s, w);
      e := OfWorker(w, step);
  }

  /**
   * No deadlock: in every reachable state of a running process, if no handler or worker can move,
   * then no job is unfinished except those whose holder was cancelled or lost a database call.
   */
  lemma StuckMeansFinished(s0: State, steps: seq<Step>)
    requires Initial(s0) && ValidRun(s0, steps) && After(s0, steps).up
    requires forall e :: Advances(e) ==> !Enabled(After(s0, steps), e)
    ensures var s := After(s0, steps); forall id :: Unfinished(s, id) ==> id in s.lost
  {
    var s := After(s0, steps);
    Reaches(s0, steps);
    forall id | Unfinished(s, id) ensures id in s.lost {
      if id !in s.lost {
        NoJobIsStranded(s0, steps, id);
        var p :| Covers(s, p, id);
        var e := HolderCanAdvance(s, p);
        assert false;
      }
    }
  }
}
