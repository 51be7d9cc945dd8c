/** Concrete runs of one job, under any id: the situations the guarantees speak of do occur. */
module SampleRuns {
  import opened Basics
  import opened JobStatuses
  import opened Tables
  import opened BlobPaths
  import opened Protocol
  import opened ProtocolSafety
  import opened JobGuarantees

  /** Retention is on, with the shortest window. */
  const RETENTION := 1

  const CREW: seq<Worker> := [Idle, Idle, Idle, Idle]

  /** A state in which nothing but rows, queue, handlers, workers and events has been touched. */
  function Scene(jobs: Jobs, history: Histories, channel: seq<string>, handlers: map<nat, Handler>,
                 workers: seq<Worker>, sent: seq<Event>): State {
    State(RETENTION, 0, jobs, map[], {}, history, true, channel, handlers, workers, map[], Resting, sent, {})
  }

  function EmptyState(): State { Scene(map[], map[], [], map[], CREW, []) }

  lemma OneMoreStep(s: State, steps: seq<Step>, e: Step)
    requires ValidRun(s, steps) && Enabled(After(s, steps), e)
    ensures ValidRun(s, steps + [e]) && After(s, steps + [e]) == Next(After(s, steps), e)
  {
    var m := After(s, steps);
    assert [e][0] == e && [e][1..] == [];
    assert ValidRun(Next(m, e), []) && After(Next(m, e), []) == Next(m, e);
    assert ValidRun(m, [e]);
    assert After(m, [e]) == After(Next(m, e), [e][1..]);
    RunsJoin(s, steps, [e]);
  }

  function QueuedJob(id: string): Jobs { map[id := NewRow(0, Image, 0)] }

  function RunningJob(id: string): Jobs { map[id := StartedRow(NewRow(0, Image, 0), 0)] }

  const FAILURE := Failed(Internal, ErrInternal)

  function FailedJob(id: string): Jobs { map[id := FinishedRow(StartedRow(NewRow(0, Image, 0), 0), FAILURE, 0)] }

  function Past(id: string, statuses: seq<StatusName>): Histories { map[id := statuses] }

  /** One job submitted, queued and received; nothing else has happened. */
  lemma ReceivedRun(id: string) returns (steps: seq<Step>)
    requires IsUuid(id)
    ensures ValidRun(EmptyState(), steps) && Steady(steps)
    ensures After(EmptyState(), steps) == Scene(QueuedJob(id), Past(id, [QueuedName]), [], map[], CREW[0 := Received(id)], [])
  {
    var s := EmptyState();
    steps := [];
    OneMoreStep(s, steps, OfHandler(0, Create(id, 0, Image)));
    steps := steps + [OfHandler(0, Create(id, 0, Image))];
    assert [] + [QueuedName] == [QueuedName];
    assert After(s, steps) == Scene(QueuedJob(id), Past(id, [QueuedName]), [], map[0 := Inserted(id)], CREW, []);
    OneMoreStep(s, steps, OfHandler(0, Enqueue));
    steps := steps + [OfHandler(0, Enqueue)];
    assert map[0 := Inserted(id)] - {0} == map[];
    assert [] + [id] == [id];
    assert After(s, steps) == Scene(QueuedJob(id), Past(id, [QueuedName]), [id], map[], CREW, []);
    OneMoreStep(s, steps, OfWorker(0, Receive));
    steps := steps + [OfWorker(0, Receive)];
    assert [id][1..] == [];
  }

  /** The job claimed by the first worker. */
  function ClaimedState(id: string): State { Scene(RunningJob(id), Past(id, [QueuedName, RunningName]), [], map[], CREW[0 := Claimed(id)], []) }

  lemma ClaimedRun(id: string) returns (steps: seq<Step>)
    requires IsUuid(id)
    ensures ValidRun(EmptyState(), steps) && Steady(steps)
    ensures After(EmptyState(), steps) == ClaimedState(id)
  {
    steps := ReceivedRun(id);
    OneMoreStep(EmptyState(), steps, OfWorker(0, Claim));
    steps := steps + [OfWorker(0, Claim)];
    assert [QueuedName] + [RunningName] == [QueuedName, RunningName];
    assert CREW[0 := Received(id)][0 := Claimed(id)] == CREW[0 := Claimed(id)];
    assert MarkRunning(QueuedJob(id), id, 0) == RunningJob(id);
    assert Log(Past(id, [QueuedName]), id, RunningName) == Past(id, [QueuedName, RunningName]);
  }

  /**
   * An id does reach a second worker: here it is delivered again while the first worker holds the job. The second
   * worker's claim leaves everything as it was.
   */
  lemma DuplicateReachesWorker(id: string) returns (steps: seq<Step>)
    requires IsUuid(id)
    ensures Initial(EmptyState()) && ValidRun(EmptyState(), steps)
    ensures var s := After(EmptyState(), steps);
      && s.workers == CREW[0 := Claimed(id)][1 := Received(id)]
      && Enabled(s, OfWorker(1, Claim)) && Next(s, OfWorker(1, Claim)) == ClaimedState(id)
  {
    steps := ClaimedRun(id);
    var s := EmptyState();
    OneMoreStep(s, steps, Redeliver(id));
    steps := steps + [Redeliver(id)];
    assert [] + [id] == [id];
    assert After(s, steps) == Scene(RunningJob(id), Past(id, [QueuedName, RunningName]), [id], map[], CREW[0 := Claimed(id)], []);
    OneMoreStep(s, steps, OfWorker(1, Receive));
    steps := steps + [OfWorker(1, Receive)];
    assert [id][1..] == [];
    assert CREW[0 := Claimed(id)][1 := Received(id)][1 := Idle] == CREW[0 := Claimed(id)];
  }

  /** The failure committed, but not yet broadcast. */
  function ReportingState(id: string): State {
    Scene(FailedJob(id), Past(id, [QueuedName, RunningName, FailedName]), [], map[], CREW[0 := Reporting(id, FAILURE)], [Published(id, Running)])
  }

  function GeneratingState(id: string): State {
    Scene(RunningJob(id), Past(id, [QueuedName, RunningName]), [], map[], CREW[0 := Generating(id)], [Published(id, Running)])
  }

  lemma GeneratingRun(id: string) returns (steps: seq<Step>)
    requires IsUuid(id)
    ensures ValidRun(EmptyState(), steps) && Steady(steps) && After(EmptyState(), steps) == GeneratingState(id)
  {
    steps := ClaimedRun(id);
    OneMoreStep(EmptyState(), steps, OfWorker(0, PublishRunning));
    steps := steps + [OfWorker(0, PublishRunning)];
    assert [] + [Published(id, Running)] == [Published(id, Running)];
    assert CREW[0 := Claimed(id)][0 := Generating(id)] == CREW[0 := Generating(id)];
  }

  lemma ReportingRun(id: string) returns (steps: seq<Step>)
    requires IsUuid(id)
    ensures Initial(EmptyState()) && ValidRun(EmptyState(), steps) && Steady(steps)
    ensures After(EmptyState(), steps) == ReportingState(id)
  {
    steps := GeneratingRun(id);
    var s := EmptyState();
    var told := [Published(id, Running)];
    OneMoreStep(s, steps, OfWorker(0, GenerationFailed(Internal, ErrInternal)));
    steps := steps + [OfWorker(0, GenerationFailed(Internal, ErrInternal))];
    assert CREW[0 := Generating(id)][0 := Finishing(id, FAILURE)] == CREW[0 := Finishing(id, FAILURE)];
    var t := Scene(RunningJob(id), Past(id, [QueuedName, RunningName]), [], map[], CREW[0 := Finishing(id, FAILURE)], told);
    assert After(s, steps) == t;
    OneMoreStep(s, steps, OfWorker(0, FinishOutcome));
    steps := steps + [OfWorker(0, FinishOutcome)];
    FailureIsWritten(id, t);
  }

  lemma FailureIsWritten(id: string, s: State)
    requires s == Scene(RunningJob(id), Past(id, [QueuedName, RunningName]), [], map[], CREW[0 := Finishing(id, FAILURE)],
                        [Published(id, Running)])
    ensures WorkerEnabled(s, 0, FinishOutcome) && WorkerNext(s, 0, FinishOutcome) == ReportingState(id)
  {
    assert [QueuedName, RunningName] + [FailedName] == [QueuedName, RunningName, FailedName];
    assert Finish(RunningJob(id), id, FAILURE, 0) == FailedJob(id);
    assert Log(Past(id, [QueuedName, RunningName]), id, FailedName) == Past(id, [QueuedName, RunningName, FailedName]);
    assert CREW[0 := Finishing(id, FAILURE)][0 := Reporting(id, FAILURE)] == CREW[0 := Reporting(id, FAILURE)];
  }

  /** A request abandoned between its insert and its enqueue leaves a queued row that nobody holds. */
  lemma CancelledJobIsHeldByNobody(id: string) returns (steps: seq<Step>)
    requires IsUuid(id)
    ensures Initial(EmptyState()) && ValidRun(EmptyState(), steps) && Steady(steps)
    ensures var s := After(EmptyState(), steps);
      s.up && Unfinished(s, id) && !Held(s, id) && s.lost == {id}
  {
    var s := EmptyState();
    steps := [];
    OneMoreStep(s, steps, OfHandler(0, Create(id, 0, Image)));
    steps := steps + [OfHandler(0, Create(id, 0, Image))];
    assert [] + [QueuedName] == [QueuedName];
    assert After(s, steps) == Scene(QueuedJob(id), Past(id, [QueuedName]), [], map[0 := Inserted(id)], CREW, []);
    OneMoreStep(s, steps, OfHandler(0, CancelHandler));
    steps := steps + [OfHandler(0, CancelHandler)];
    assert map[0 := Inserted(id)] - {0} == map[];
    var t := Scene(QueuedJob(id), Past(id, [QueuedName]), [], map[], CREW, []).(lost := {id});
    assert After(s, steps) == t;
    assert forall p :: HolderId(t, p).None?;
  }
}
