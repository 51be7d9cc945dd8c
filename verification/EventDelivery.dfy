/**
 * What reaches a subscriber, said of the published events themselves: which are shown,
 * which are lost to a full buffer, and when the stream closes.
 */
module EventDelivery {
  import opened Basics
  import opened JobStatuses
  import opened Tables
  import opened BlobPaths
  import opened Protocol
  import opened ProtocolSafety
  import opened ProtocolEvents
  import opened JobGuarantees
  import opened EventStream
  import opened SampleRuns

  // ---------------------------------------------------------------- overrun events

  predicate NoReset(steps: seq<WorldStep>) { forall e :: e in steps ==> !(e.Service? && e.e.Crash?) }

  /** More than 256 newer events are out before the subscriber has got to event `i`. */
  predicate OverrunNow(w: World, i: nat) {
    w.u.Live? && w.u.cursor <= i && i + 256 < |w.s.sent|
  }

  /** That happens at some point of the run. */
  predicate Overrun(w: World, steps: seq<WorldStep>, i: nat)
    requires Runs(w, steps)
    decreases steps
  {
    OverrunNow(w, i) || (steps != [] && Overrun(Onward(w, steps[0]), steps[1..], i))
  }

  /** A subscription only reads on, and events are only added. */
  ghost predicate ReadsOn(w: World, v: World) {
    && w.u.Live? && v.u.Live? && v.u.job == w.u.job && v.u.snapshot == w.u.snapshot && v.u.start == w.u.start
    && w.u.cursor <= v.u.cursor && w.s.sent <= v.s.sent
    && (forall i: nat :: i < w.u.cursor ==> (i in w.u.received <==> i in v.u.received))
  }

  lemma StepReadsOn(w: World, e: WorldStep)
    requires WorldOk(w) && w.u.Live? && Possible(w, e) && !(e.Service? && e.e.Crash?)
    ensures ReadsOn(w, Onward(w, e))
  {
    if e.Service? {
      StepSendsOn(w.s, e.e);
    }
  }

  lemma {:induction false} RunReadsOn(w: World, steps: seq<WorldStep>)
    requires WorldOk(w) && w.u.Live? && Runs(w, steps) && NoReset(steps)
    ensures WorldOk(Finally(w, steps)) && ReadsOn(w, Finally(w, steps))
    decreases steps
  {
    if steps != [] {
      assert steps[0] in steps;
      StepReadsOn(w, steps[0]);
      WorldKept(w, steps[0]);
      RunReadsOn(Onward(w, steps[0]), steps[1..]);
    }
  }

  /** What has been read cannot be overrun any more. */
  lemma {:induction false} ReadIsSafe(w: World, steps: seq<WorldStep>, i: nat)
    requires WorldOk(w) && w.u.Live? && Runs(w, steps) && NoReset(steps) && i < w.u.cursor
    ensures !Overrun(w, steps, i)
    decreases steps
  {
    if steps != [] {
      assert steps[0] in steps;
      StepReadsOn(w, steps[0]);
      WorldKept(w, steps[0]);
      ReadIsSafe(Onward(w, steps[0]), steps[1..], i);
    }
  }

  /** Reading past event `i` in one step takes it exactly when it had not been overrun. */
  lemma OneReadIsExact(w: World, e: WorldStep, i: nat)
    requires WorldOk(w) && w.u.Live? && Possible(w, e) && !(e.Service? && e.e.Crash?)
    requires w.u.cursor <= i && Onward(w, e).u.Live? && i < Onward(w, e).u.cursor
    ensures i in Onward(w, e).u.received <==> !OverrunNow(w, i)
  {
  }

  /** Of the events the subscriber has read past, it took exactly those that were never overrun. */
  lemma {:induction false} TakenUnlessOverrun(w: World, steps: seq<WorldStep>, i: nat)
    requires WorldOk(w) && w.u.Live? && Runs(w, steps) && NoReset(steps) && w.u.cursor <= i
    requires Finally(w, steps).u.Live? && i < Finally(w, steps).u.cursor
    ensures i in Finally(w, steps).u.received <==> !Overrun(w, steps, i)
    decreases steps
  {
    if steps != [] {
      var v := Onward(w, steps[0]);
      assert steps[0] in steps;
      StepReadsOn(w, steps[0]);
      WorldKept(w, steps[0]);
      if i < v.u.cursor {
        OneReadIsExact(w, steps[0], i);
        ReadIsSafe(v, steps[1..], i);
        RunReadsOn(v, steps[1..]);
      } else {
        TakenUnlessOverrun(v, steps[1..], i);
        assert OverrunNow(w, i) ==> OverrunNow(v, i);
        assert OverrunNow(v, i) ==> Overrun(v, steps[1..], i);
      }
    }
  }

  /** Once loaded, the snapshot stays what it is. */
  lemma {:induction false} SnapshotIsKept(w: World, steps: seq<WorldStep>)
    requires Runs(w, steps) && NoReset(steps) && !w.u.NotAsked?
    ensures var v := Finally(w, steps); !v.u.NotAsked? && v.u.job == w.u.job && v.u.snapshot == w.u.snapshot
    decreases steps
  {
    if steps != [] {
      assert steps[0] in steps;
      SnapshotIsKept(Onward(w, steps[0]), steps[1..]);
    }
  }

  /** The first thing a subscriber is shown is what its row said when it was loaded, however much happens in between. */
  lemma SnapshotIsShownFirst(w0: World, before: seq<WorldStep>, id: string, steps: seq<WorldStep>)
    requires Start(w0) && Runs(w0, before) && Possible(Finally(w0, before), Load(id))
    requires Runs(Onward(Finally(w0, before), Load(id)), steps) && NoReset(steps)
    requires var v := Finally(Onward(Finally(w0, before), Load(id)), steps); v.u.Live? && v.u.begun
    ensures var v := Finally(Onward(Finally(w0, before), Load(id)), steps);
      && v.u.job == id && v.u.out.emitted != []
      && v.u.out.emitted[0] == StatusOf(Finally(w0, before).s.jobs[id])
  {
    var w := Finally(w0, before);
    var loaded := Onward(w, Load(id));
    SnapshotIsKept(loaded, steps);
    WorldReaches(w0, before);
    WorldKept(w, Load(id));
    WorldAlways(loaded, steps);
    WorldShowsInOrder(Finally(loaded, steps));
  }

  /** A reader that only keeps polling gets to the last event, in no more polls than there are events left. */
  lemma {:induction false} PollingCatchesUp(w: World) returns (steps: seq<WorldStep>)
    requires w.s.up && w.u.Live? && w.u.begun && w.u.cursor <= |w.s.sent|
    ensures (forall e :: e in steps ==> e.Poll?) && |steps| <= |w.s.sent| - w.u.cursor
    ensures Runs(w, steps)
    ensures var v := Finally(w, steps); v.s == w.s && v.u.Live? && v.u.cursor == |w.s.sent|
    decreases |w.s.sent| - w.u.cursor
  {
    if w.u.cursor == |w.s.sent| {
      steps := [];
    } else {
      var rest := PollingCatchesUp(Onward(w, Poll));
      steps := [Poll] + rest;
      assert steps[0] == Poll && steps[1..] == rest;
    }
  }

  // ---------------------------------------------------------------- a subscription

  /** From an empty database up to a subscribe, and on from there without the process dying. */
  ghost predicate Subscription(w0: World, before: seq<WorldStep>, steps: seq<WorldStep>) {
    && Start(w0) && Runs(w0, before) && Possible(Finally(w0, before), Subscribe)
    && Runs(Onward(Finally(w0, before), Subscribe), steps) && NoReset(steps)
  }

  function Subscribed(w0: World, before: seq<WorldStep>): World
    requires Runs(w0, before) && Possible(Finally(w0, before), Subscribe)
  {
    Onward(Finally(w0, before), Subscribe)
  }

  /** Event `i` is one of the job's, published since the subscribe and read past without having been overrun. */
  ghost predicate GotThrough(w: World, steps: seq<WorldStep>, i: nat)
    requires Runs(w, steps)
  {
    var v := Finally(w, steps);
    && w.u.Live? && v.u.Live? && |w.s.sent| <= i < v.u.cursor && i < |v.s.sent|
    && v.s.sent[i].id == w.u.job && !Overrun(w, steps, i)
  }

  lemma SubscriptionHolds(w0: World, before: seq<WorldStep>, steps: seq<WorldStep>)
    requires Subscription(w0, before, steps)
    ensures var w := Subscribed(w0, before); var v := Finally(w, steps);
      WorldOk(w) && WorldOk(v) && ReadsOn(w, v) && w.u.cursor == w.u.start == |w.s.sent|
  {
    WorldReaches(w0, before);
    WorldKept(Finally(w0, before), Subscribe);
    RunReadsOn(Subscribed(w0, before), steps);
  }

  lemma TakenIsGotThrough(w0: World, before: seq<WorldStep>, steps: seq<WorldStep>, i: nat)
    requires Subscription(w0, before, steps)
    requires var v := Finally(Subscribed(w0, before), steps); v.u.Live? && i < |v.s.sent| && v.s.sent[i].id == v.u.job
    ensures i in Finally(Subscribed(w0, before), steps).u.received <==> GotThrough(Subscribed(w0, before), steps, i)
  {
    var w := Subscribed(w0, before);
    var v := Finally(w, steps);
    SubscriptionHolds(w0, before, steps);
    if |w.s.sent| <= i < v.u.cursor {
      TakenUnlessOverrun(w, steps, i);
    } else {
      assert i !in v.u.received;
    }
  }

  // ---------------------------------------------------------------- what is shown

  /** A terminal status is shown, once and last. */
  predicate EndsTerminal(shown: seq<JobStatus>) {
    && shown != [] && IsTerminal(shown[|shown| - 1])
    && forall k :: 0 <= k < |shown| - 1 ==> !IsTerminal(shown[k])
  }

  /** The receiver's own record of a terminal event, which `TakenIsGotThrough` ties to the published one. */
  ghost predicate TookTerminal(w: World)
    requires w.u.Live?
  {
    exists i: nat :: i in w.u.received && i < |w.s.sent| && w.s.sent[i].id == w.u.job && IsTerminal(w.s.sent[i].status)
  }

  lemma TerminalItemWasTaken(w: World, k: nat)
    requires WorldOk(w) && w.u.Live? && 0 < k < |Items(w)| && IsTerminal(Items(w)[k])
    ensures TookTerminal(w)
  {
    DeliveredElements(w.s.sent, w.u.job, w.u.received, w.u.cursor, k - 1);
  }

  lemma TakenTerminalIsAnItem(w: World)
    requires WorldOk(w) && w.u.Live? && TookTerminal(w)
    ensures exists k :: 0 <= k < |Items(w)| && IsTerminal(Items(w)[k])
  {
    var u := w.u;
    var d := Delivered(w.s.sent, u.job, u.received, u.cursor);
    var i: nat :| i in u.received && i < |w.s.sent| && w.s.sent[i].id == u.job && IsTerminal(w.s.sent[i].status);
    DeliveredContains(w.s.sent, u.job, u.received, u.cursor, i);
    var k :| 0 <= k < |d| && d[k] == w.s.sent[i].status;
    assert Items(w)[k + 1] == d[k];
  }

  lemma TerminalItemExactly(w: World)
    requires WorldOk(w) && w.u.Live?
    ensures (exists k :: 0 <= k < |Items(w)| && IsTerminal(Items(w)[k])) <==> (IsTerminal(w.u.snapshot) || TookTerminal(w))
  {
    assert Items(w)[0] == w.u.snapshot;
    if k :| 0 <= k < |Items(w)| && IsTerminal(Items(w)[k]) {
      if k > 0 { TerminalItemWasTaken(w, k); }
    }
    if TookTerminal(w) {
      TakenTerminalIsAnItem(w);
    }
  }

  lemma ShownOnceOrNever(items: seq<JobStatus>)
    requires items != []
    ensures var shown := AcceptAll(items).emitted;
      && (EndsTerminal(shown) <==> exists k :: 0 <= k < |items| && IsTerminal(items[k]))
      && (!EndsTerminal(shown) ==> forall k :: 0 <= k < |shown| ==> !IsTerminal(shown[k]))
  {
    AcceptAllIsAPrefix(items);
    var out := AcceptAll(items);
    assert out.emitted != [];
    assert forall k :: 0 <= k < |out.emitted| ==> out.emitted[k] == items[k];
  }

  /**
   * A terminal status is shown, exactly once and last, if and only if the snapshot was terminal already or the job's
   * terminal event was published after the subscribe and the subscriber got to it before 256 newer ones overran it.
   */
  lemma TerminalShownExactly(w0: World, before: seq<WorldStep>, steps: seq<WorldStep>)
    requires Subscription(w0, before, steps)
    requires Finally(Subscribed(w0, before), steps).u.Live? && Finally(Subscribed(w0, before), steps).u.begun
    ensures var w := Subscribed(w0, before); var v := Finally(w, steps); var shown := v.u.out.emitted;
      && (EndsTerminal(shown) <==>
            IsTerminal(v.u.snapshot)
            || exists i: nat :: GotThrough(w, steps, i) && IsTerminal(v.s.sent[i].status))
      && (!EndsTerminal(shown) ==> forall k :: 0 <= k < |shown| ==> !IsTerminal(shown[k]))
  {
    var w := Subscribed(w0, before);
    var v := Finally(w, steps);
    SubscriptionHolds(w0, before, steps);
    ShownOnceOrNever(Items(v));
    TerminalItemExactly(v);
    forall i: nat | i < |v.s.sent| && v.s.sent[i].id == v.u.job
      ensures i in v.u.received <==> GotThrough(w, steps, i)
    {
      TakenIsGotThrough(w0, before, steps, i);
    }
  }

  lemma {:induction false} OverrunMeansOld(w: World, steps: seq<WorldStep>, i: nat)
    requires WorldOk(w) && w.u.Live? && Runs(w, steps) && NoReset(steps) && Overrun(w, steps, i)
    ensures i + 256 < |Finally(w, steps).s.sent|
    decreases steps
  {
    RunReadsOn(w, steps);
    if !OverrunNow(w, i) {
      assert steps[0] in steps;
      StepReadsOn(w, steps[0]);
      WorldKept(w, steps[0]);
      OverrunMeansOld(Onward(w, steps[0]), steps[1..], i);
    }
  }

  /** With no more than 256 newer events out, a terminal event read past is shown for certain. */
  lemma RecentTerminalIsShown(w0: World, before: seq<WorldStep>, steps: seq<WorldStep>, i: nat)
    requires Subscription(w0, before, steps)
    requires var v := Finally(Subscribed(w0, before), steps);
      && v.u.Live? && v.u.begun
      && |Subscribed(w0, before).s.sent| <= i < v.u.cursor && i < |v.s.sent| && |v.s.sent| <= i + 256
      && v.s.sent[i].id == v.u.job && IsTerminal(v.s.sent[i].status)
    ensures EndsTerminal(Finally(Subscribed(w0, before), steps).u.out.emitted)
  {
    var w := Subscribed(w0, before);
    SubscriptionHolds(w0, before, steps);
    if Overrun(w, steps, i) {
      OverrunMeansOld(w, steps, i);
    }
    assert GotThrough(w, steps, i);
    TerminalShownExactly(w0, before, steps);
  }

  /** A terminal event published between the loading of the row and the subscribe is never shown. */
  lemma EarlierTerminalIsMissed(w0: World, before: seq<WorldStep>, steps: seq<WorldStep>, i: nat)
    requires Subscription(w0, before, steps)
    requires var w := Subscribed(w0, before); var v := Finally(w, steps);
      && v.u.Live? && v.u.begun && !IsTerminal(v.u.snapshot)
      && i < |w.s.sent| && w.s.sent[i].id == w.u.job && IsTerminal(w.s.sent[i].status)
    ensures var shown := Finally(Subscribed(w0, before), steps).u.out.emitted;
      forall k :: 0 <= k < |shown| ==> !IsTerminal(shown[k])
  {
    var w := Subscribed(w0, before);
    var v := Finally(w, steps);
    SubscriptionHolds(w0, before, steps);
    TerminalShownExactly(w0, before, steps);
    assert v.s.sent[i] == w.s.sent[i];
    assert forall j: nat :: GotThrough(w, steps, j) ==> i < j && v.s.sent[j].id == v.s.sent[i].id;
    assert SentInOrder(v.s.sent);
  }

  // ---------------------------------------------------------------- when the stream closes

  /**
   * The stream closes if and only if the snapshot was terminal and an event of the job published after the subscribe
   * got through. Showing the job finish therefore never closes it.
   */
  lemma ClosesExactly(w0: World, before: seq<WorldStep>, steps: seq<WorldStep>)
    requires Subscription(w0, before, steps)
    requires Finally(Subscribed(w0, before), steps).u.Live? && Finally(Subscribed(w0, before), steps).u.begun
    ensures var w := Subscribed(w0, before); var v := Finally(w, steps);
      v.u.out.closed <==> IsTerminal(v.u.snapshot) && exists i: nat :: GotThrough(w, steps, i)
  {
    var w := Subscribed(w0, before);
    var v := Finally(w, steps);
    SubscriptionHolds(w0, before, steps);
    ClosesOnALaterItem(v);
    forall i: nat | i < |v.s.sent| && v.s.sent[i].id == v.u.job
      ensures i in v.u.received <==> GotThrough(w, steps, i)
    {
      TakenIsGotThrough(w0, before, steps, i);
    }
  }

  lemma ClosesOnALaterItem(w: World)
    requires WorldOk(w) && w.u.Live? && w.u.begun
    ensures w.u.out.closed
      <==> (IsTerminal(w.u.snapshot) && exists i: nat :: i in w.u.received && i < |w.s.sent| && w.s.sent[i].id == w.u.job)
  {
    var u := w.u;
    var items := Items(w);
    AcceptAllIsAPrefix(items);
    if !IsTerminal(u.snapshot) {
      ItemsAreOrdered(w);
    }
    assert items[0] == u.snapshot;
    if |items| > 1 {
      DeliveredElements(w.s.sent, u.job, u.received, u.cursor, 0);
    }
    if i: nat :| i in u.received && i < |w.s.sent| && w.s.sent[i].id == u.job {
      DeliveredContains(w.s.sent, u.job, u.received, u.cursor, i);
    }
  }

  // ---------------------------------------------------------------- both endings occur

  function Services(steps: seq<Protocol.Step>): (served: seq<WorldStep>)
    ensures |served| == |steps|
  {
    if steps == [] then [] else [Service(steps[0])] + Services(steps[1..])
  }

  lemma {:induction false} Serving(s: State, steps: seq<Protocol.Step>)
    requires ValidRun(s, steps) && Steady(steps)
    ensures Runs(World(s, NotAsked), Services(steps))
    ensures Finally(World(s, NotAsked), Services(steps)) == World(Protocol.After(s, steps), NotAsked)
    decreases steps
  {
    if steps != [] {
      assert steps[0] in steps;
      assert Services(steps)[1..] == Services(steps[1..]);
      Serving(Next(s, steps[0]), steps[1..]);
    }
  }

  lemma {:induction false} RunsOn(w: World, first: seq<WorldStep>, e: WorldStep)
    requires Runs(w, first) && Possible(Finally(w, first), e)
    ensures Runs(w, first + [e]) && Finally(w, first + [e]) == Onward(Finally(w, first), e)
    decreases first
  {
    if first == [] {
      assert [] + [e] == [e] && [e][1..] == [];
    } else {
      assert (first + [e])[1..] == first[1..] + [e];
      RunsOn(Onward(w, first[0]), first[1..], e);
    }
  }

  const SOME_ID: string := seq(36, _ => '0')

  /** The subscriber has loaded the row of a job that has failed but whose failure is not broadcast yet. */
  lemma LoadsEarly() returns (w0: World, before: seq<WorldStep>)
    ensures Start(w0) && Runs(w0, before)
    ensures Finally(w0, before) == World(ReportingState(SOME_ID), Loaded(SOME_ID, FAILURE))
  {
    var run := ReportingRun(SOME_ID);
    w0 := World(EmptyState(), NotAsked);
    Serving(EmptyState(), run);
    StatusReadsBack(FAILURE);
    RunsOn(w0, Services(run), Load(SOME_ID));
    before := Services(run) + [Load(SOME_ID)];
  }

  /** The subscriber's own three steps when the broadcast comes after the subscribe. */
  lemma ReadsTheBroadcast(w: World) returns (steps: seq<WorldStep>)
    requires w == World(ReportingState(SOME_ID), Live(SOME_ID, FAILURE, 1, 1, {}, false, NOTHING))
    ensures Runs(w, steps) && NoReset(steps)
    ensures var v := Finally(w, steps); v.u.Live? && v.u.begun && v.u.out == Output([FAILURE], true, true)
  {
    var publish := Service(OfWorker(0, PublishOutcome));
    steps := [];
    RunsOn(w, steps, publish);
    steps := steps + [publish];
    RunsOn(w, steps, Poll);
    steps := steps + [Poll];
    RunsOn(w, steps, Poll);
    steps := steps + [Poll];
    assert [] + [FAILURE] == [FAILURE];
  }

  /** Loaded just before the broadcast and subscribed in time: the broadcast closes the stream. */
  lemma StreamDoesClose() returns (w0: World, before: seq<WorldStep>, steps: seq<WorldStep>)
    ensures Subscription(w0, before, steps)
    ensures var v := Finally(Subscribed(w0, before), steps);
      v.u.Live? && v.u.begun && v.u.out.emitted == [FAILURE] && v.u.out.closed
  {
    w0, before := LoadsEarly();
    steps := ReadsTheBroadcast(Subscribed(w0, before));
  }

  /** As above, but the broadcast comes before the subscribe. */
  lemma LoadsLate() returns (w0: World, before: seq<WorldStep>)
    ensures Start(w0) && Runs(w0, before)
    ensures var w := Finally(w0, before);
      && w.u == Loaded(SOME_ID, FAILURE) && w.s.up
      && w.s.workers == CREW && w.s.channel == [] && w.s.handlers == map[]
  {
    w0, before := LoadsEarly();
    var publish := Service(OfWorker(0, PublishOutcome));
    RunsOn(w0, before, publish);
    before := before + [publish];
    assert CREW[0 := Reporting(SOME_ID, FAILURE)][0 := Idle] == CREW;
  }

  /**
   * Loaded and subscribed at the same moments, but with nothing more sent: the failure has been shown, every event has
   * been read, and the stream is still open.
   */
  lemma StreamMayStayOpen() returns (w0: World, before: seq<WorldStep>, steps: seq<WorldStep>)
    ensures Subscription(w0, before, steps)
    ensures var v := Finally(Subscribed(w0, before), steps);
      && v.u.Live? && v.u.begun && v.u.cursor == |v.s.sent|
      && v.u.out.emitted == [FAILURE] && IsTerminal(FAILURE) && !v.u.out.closed
      && v.s.workers == CREW && v.s.channel == [] && v.s.handlers == map[]
  {
    w0, before := LoadsLate();
    steps := [Poll];
    assert steps[1..] == [];
    assert [] + [FAILURE] == [FAILURE];
  }
}
