/**
 * One Server-Sent Events subscriber on top of the protocol: it loads the row,
 * then subscribes, then polls the chained stream through its stateful
 * `take_while`, while everything else keeps running.
 */
module EventStream {
  import opened Basics
  import opened JobStatuses
  import opened Tables
  import opened BlobPaths
  import opened Protocol
  import opened ProtocolSafety
  import opened ProtocolEvents
  import opened JobGuarantees

  const EVENT_BUFFER := 256

  // ---------------------------------------------------------------- take_while as a function

  /** What the stream has produced, and the closure's `terminal_seen`. */
  datatype Output = Output(emitted: seq<JobStatus>, terminalSeen: bool, closed: bool)

  const NOTHING := Output([], false, false)

  predicate IsTerminal(status: JobStatus) { Terminal(NameOf(status)) }

  /** One item through the closure: emitted unless a terminal status came before it. */
  function Accept(out: Output, item: JobStatus): Output {
    if out.closed then out
    else if out.terminalSeen then out.(closed := true)
    else Output(out.emitted + [item], IsTerminal(item), false)
  }

  function AcceptAll(items: seq<JobStatus>): Output {
    if items == [] then NOTHING else Accept(AcceptAll(items[..|items| - 1]), items[|items| - 1])
  }

  /** Statuses in the order queued, running, terminal. */
  predicate Ordered(items: seq<JobStatus>) {
    forall i, j :: 0 <= i < j < |items| ==> Rank(NameOf(items[i])) <= Rank(NameOf(items[j]))
  }

  /**
   * The stream emits the items up to and including the first terminal one, and it closes exactly when
   * some item follows a terminal one.
   */
  lemma {:induction false} AcceptAllIsAPrefix(items: seq<JobStatus>)
    ensures var out := AcceptAll(items);
      && out.emitted <= items
      && (forall i :: 0 <= i < |out.emitted| - 1 ==> !IsTerminal(items[i]))
      && (out.terminalSeen <==> exists i :: 0 <= i < |items| && IsTerminal(items[i]))
      && (out.terminalSeen <==> out.emitted != [] && IsTerminal(out.emitted[|out.emitted| - 1]))
      && (!out.terminalSeen ==> out.emitted == items)
      && (out.closed <==> exists i :: 0 <= i < |items| - 1 && IsTerminal(items[i]))
    decreases |items|
  {
    if items != [] {
      var rest := items[..|items| - 1];
      AcceptAllIsAPrefix(rest);
      var before := AcceptAll(rest);
      var out := AcceptAll(items);
      assert forall i :: 0 <= i < |rest| ==> items[i] == rest[i];
      assert items == rest + [items[|items| - 1]];
      if before.terminalSeen {
        var i :| 0 <= i < |rest| && IsTerminal(rest[i]);
        assert IsTerminal(items[i]);
      }
    }
  }

  // ---------------------------------------------------------------- the subscriber

  datatype Stream =
    | NotAsked
    | Loaded(job: string, snapshot: JobStatus)
    | Live(job: string, snapshot: JobStatus, start: nat, cursor: nat, received: set<nat>, begun: bool, out: Output)

  datatype World = World(s: State, u: Stream)

  datatype WorldStep =
    | Service(e: Step)
    | Load(id: string)
    | Subscribe
    | Poll

  predicate Possible(w: World, e: WorldStep) {
    match e
    case Service(step) => Enabled(w.s, step)
    case Load(id) => w.s.up && w.u.NotAsked? && id in w.s.jobs
    case Subscribe => w.s.up && w.u.Loaded?
    case Poll => w.s.up && w.u.Live? && (!w.u.begun || w.u.cursor < |w.s.sent|)
  }

  /** The next poll: the snapshot first; then a lagging receiver skips ahead, or the next event is taken. */
  function Polled(s: State, u: Stream): Stream
    requires u.Live? && (!u.begun || u.cursor < |s.sent|)
  {
    if !u.begun then u.(begun := true, out := Accept(u.out, u.snapshot))
    else if |s.sent| - u.cursor > EVENT_BUFFER then u.(cursor := |s.sent| - EVENT_BUFFER)
    else
      var event := s.sent[u.cursor];
      u.(cursor := u.cursor + 1, received := u.received + {u.cursor},
         out := if event.id == u.job then Accept(u.out, event.status) else u.out)
  }

  function Onward(w: World, e: WorldStep): World
    requires Possible(w, e)
  {
    match e
    case Service(step) => World(Next(w.s, step), if step.Crash? then NotAsked else w.u)
    case Load(id) => w.(u := Loaded(id, StatusOf(w.s.jobs[id])))
    case Subscribe => w.(u := Live(w.u.job, w.u.snapshot, |w.s.sent|, |w.s.sent|, {}, false, NOTHING))
    case Poll => w.(u := Polled(w.s, w.u))
  }

  predicate Runs(w: World, steps: seq<WorldStep>)
    decreases steps
  {
    steps == [] || (Possible(w, steps[0]) && Runs(Onward(w, steps[0]), steps[1..]))
  }

  function Finally(w: World, steps: seq<WorldStep>): World
    requires Runs(w, steps)
    decreases steps
  {
    if steps == [] then w else Finally(Onward(w, steps[0]), steps[1..])
  }

  // ---------------------------------------------------------------- invariant

  /** The job's events among the received ones below `upTo`. */
  function Delivered(sent: seq<Event>, job: string, received: set<nat>, upTo: nat): seq<JobStatus>
    requires upTo <= |sent|
  {
    if upTo == 0 then []
    else
      Delivered(sent, job, received, upTo - 1)
      + if upTo - 1 in received && sent[upTo - 1].id == job then [sent[upTo - 1].status] else []
  }

  /** The snapshot is no further than the row, and once terminal it is what the row keeps. */
  ghost predicate SnapshotOk(s: State, job: string, snapshot: JobStatus) {
    && !snapshot.Cancelled?
    && job in s.history && s.history[job] != []
    && Rank(NameOf(snapshot)) <= Rank(Last(s.history[job]))
    && (IsTerminal(snapshot) && job in s.jobs ==> StatusOf(s.jobs[job]) == snapshot)
  }

  ghost predicate StreamOk(s: State, u: Stream) {
    match u
    case NotAsked => true
    case Loaded(job, snapshot) => s.up && SnapshotOk(s, job, snapshot)
    case Live(job, snapshot, start, cursor, received, begun, out) =>
      && s.up && SnapshotOk(s, job, snapshot)
      && start <= cursor <= |s.sent|
      && (forall i :: i in received ==> start <= i < cursor)
      && (!begun ==> cursor == start && out == NOTHING)
      && (begun ==> out == AcceptAll([snapshot] + Delivered(s.sent, job, received, cursor)))
  }

  ghost predicate WorldOk(w: World) { Sound(w.s) && EventsOk(w.s) && StreamOk(w.s, w.u) }

  // ---------------------------------------------------------------- the protocol keeps the stream's facts

  /** While the process lives, events are only added. */
  lemma StepSendsOn(s: State, e: Protocol.Step)
    requires Enabled(s, e) && s.up && !e.Crash?
    ensures s.sent <= Next(s, e).sent && Next(s, e).up
  {
    match e
    case OfHandler(h, step) => HandlerFrame(s, h, step);
    case OfWorker(w, step) => WorkerFrame(s, w, step);
    case OfDeleter(d, step) => DeleterFrame(s, d, step);
    case OfSweeper(step) => SweeperFrame(s, step);
    case _ =>
  }

  lemma SnapshotStays(s: State, t: State, job: string, snapshot: JobStatus)
    requires RowsOk(s.jobs, s.history, s.now) && RowsOk(t.jobs, t.history, t.now)
    requires RowsProgress(s, t) && SnapshotOk(s, job, snapshot)
    ensures SnapshotOk(t, job, snapshot)
  {
  }

  lemma {:induction false} DeliveredIgnoresNewer(sent: seq<Event>, more: seq<Event>, job: string, received: set<nat>, upTo: nat)
    requires upTo <= |sent| && sent <= more
    ensures Delivered(more, job, received, upTo) == Delivered(sent, job, received, upTo)
  {
    if upTo > 0 { DeliveredIgnoresNewer(sent, more, job, received, upTo - 1); }
  }

  lemma StreamStays(s: State, t: State, u: Stream)
    requires RowsOk(s.jobs, s.history, s.now) && RowsOk(t.jobs, t.history, t.now)
    requires RowsProgress(s, t) && s.sent <= t.sent && t.up
    requires StreamOk(s, u) && !u.NotAsked?
    ensures StreamOk(t, u)
  {
    SnapshotStays(s, t, u.job, u.snapshot);
    if u.Live? {
      DeliveredIgnoresNewer(s.sent, t.sent, u.job, u.received, u.cursor);
    }
  }

  lemma ServiceKeepsStream(s: State, e: Protocol.Step, u: Stream)
    requires Sound(s) && StreamOk(s, u) && Enabled(s, e) && !e.Crash?
    ensures StreamOk(Next(s, e), u)
  {
    if !u.NotAsked? {
      RowsKept(s, e);
      StepProgress(s, e);
      StepSendsOn(s, e);
      StreamStays(s, Next(s, e), u);
    }
  }

  // ---------------------------------------------------------------- the subscriber's own steps

  lemma LoadGivesSnapshot(s: State, id: string)
    requires RowsOk(s.jobs, s.history, s.now) && id in s.jobs
    ensures SnapshotOk(s, id, StatusOf(s.jobs[id]))
  {
    var row := s.jobs[id];
    NameReadsBack(row.status, row.errorCode, row.errorMessage);
  }

  /** Skipping ahead delivers nothing. */
  lemma {:induction false} SkippingDeliversNothing(sent: seq<Event>, job: string, received: set<nat>, from: nat, upTo: nat)
    requires from <= upTo <= |sent| && forall i :: i in received ==> i < from
    ensures Delivered(sent, job, received, upTo) == Delivered(sent, job, received, from)
    decreases upTo
  {
    if from < upTo { SkippingDeliversNothing(sent, job, received, from, upTo - 1); }
  }

  lemma {:induction false} DeliveredBelow(sent: seq<Event>, job: string, received: set<nat>, more: set<nat>, upTo: nat)
    requires upTo <= |sent| && forall i: nat :: i < upTo ==> (i in received <==> i in more)
    ensures Delivered(sent, job, received, upTo) == Delivered(sent, job, more, upTo)
  {
    if upTo > 0 { DeliveredBelow(sent, job, received, more, upTo - 1); }
  }

  lemma AcceptsOneMore(items: seq<JobStatus>, item: JobStatus)
    ensures AcceptAll(items + [item]) == Accept(AcceptAll(items), item)
  {
    assert (items + [item])[..|items|] == items;
  }

  /** The first poll gives the snapshot. */
  lemma SnapshotPollKeepsStream(s: State, u: Stream)
    requires StreamOk(s, u) && u.Live? && !u.begun
    ensures StreamOk(s, Polled(s, u))
  {
    SkippingDeliversNothing(s.sent, u.job, {}, 0, u.cursor);
    assert [u.snapshot][..0] == [];
    assert u.received == {} by { if i :| i in u.received { assert u.start <= i < u.cursor; } }
    assert [u.snapshot] + Delivered(s.sent, u.job, u.received, u.cursor) == [u.snapshot];
    AcceptsOneMore([], u.snapshot);
    assert [] + [u.snapshot] == [u.snapshot];
  }

  /** A lagging receiver skips ahead and delivers nothing. */
  lemma LaggingPollKeepsStream(s: State, u: Stream)
    requires StreamOk(s, u) && u.Live? && u.begun && |s.sent| - u.cursor > EVENT_BUFFER
    ensures StreamOk(s, Polled(s, u))
  {
    SkippingDeliversNothing(s.sent, u.job, u.received, u.cursor, Polled(s, u).cursor);
  }

  /** What one more event adds to the items. */
  lemma OneMoreDelivered(sent: seq<Event>, job: string, received: set<nat>, cursor: nat, snapshot: JobStatus)
    requires cursor < |sent| && forall i :: i in received ==> i < cursor
    ensures var before := [snapshot] + Delivered(sent, job, received, cursor);
      var after := [snapshot] + Delivered(sent, job, received + {cursor}, cursor + 1);
      after == before + (if sent[cursor].id == job then [sent[cursor].status] else [])
  {
    DeliveredBelow(sent, job, received, received + {cursor}, cursor);
  }

  lemma TakingPollKeepsStream(s: State, u: Stream)
    requires StreamOk(s, u) && u.Live? && u.begun && u.cursor < |s.sent| && |s.sent| - u.cursor <= EVENT_BUFFER
    ensures StreamOk(s, Polled(s, u))
  {
    var before := [u.snapshot] + Delivered(s.sent, u.job, u.received, u.cursor);
    var event := s.sent[u.cursor];
    OneMoreDelivered(s.sent, u.job, u.received, u.cursor, u.snapshot);
    if event.id == u.job {
      AcceptsOneMore(before, event.status);
    } else {
      assert before + [] == before;
    }
  }

  lemma PollKeepsStream(s: State, u: Stream)
    requires StreamOk(s, u) && u.Live? && (!u.begun || u.cursor < |s.sent|)
    ensures StreamOk(s, Polled(s, u))
  {
    if !u.begun {
      SnapshotPollKeepsStream(s, u);
    } else if |s.sent| - u.cursor > EVENT_BUFFER {
      LaggingPollKeepsStream(s, u);
    } else {
      TakingPollKeepsStream(s, u);
    }
  }

  lemma WorldKept(w: World, e: WorldStep)
    requires WorldOk(w) && Possible(w, e)
    ensures WorldOk(Onward(w, e))
  {
    match e
    case Service(step) =>
      SoundKept(w.s, step);
      EventsKept(w.s, step);
      if !step.Crash? { ServiceKeepsStream(w.s, step, w.u); }
    case Load(id) => LoadGivesSnapshot(w.s, id);
    case Subscribe =>
    case Poll => PollKeepsStream(w.s, w.u);
  }

  lemma {:induction false} WorldAlways(w: World, steps: seq<WorldStep>)
    requires WorldOk(w) && Runs(w, steps)
    ensures WorldOk(Finally(w, steps))
    decreases steps
  {
    if steps != [] {
      WorldKept(w, steps[0]);
      WorldAlways(Onward(w, steps[0]), steps[1..]);
    }
  }

  // ---------------------------------------------------------------- what a subscriber sees

  /** The items fed to `take_while` so far. */
  function Items(w: World): seq<JobStatus>
    requires w.u.Live? && w.u.cursor <= |w.s.sent|
  {
    [w.u.snapshot] + Delivered(w.s.sent, w.u.job, w.u.received, w.u.cursor)
  }

  lemma {:induction false} DeliveredElements(sent: seq<Event>, job: string, received: set<nat>, upTo: nat, k: nat)
    requires upTo <= |sent| && k < |Delivered(sent, job, received, upTo)|
    ensures exists i: nat :: i < upTo && i in received && sent[i].id == job && sent[i].status == Delivered(sent, job, received, upTo)[k]
    decreases upTo
  {
    var before := Delivered(sent, job, received, upTo - 1);
    if k < |before| { DeliveredElements(sent, job, received, upTo - 1, k); }
  }

  lemma {:induction false} DeliveredContains(sent: seq<Event>, job: string, received: set<nat>, upTo: nat, i: nat)
    requires i < upTo <= |sent| && i in received && sent[i].id == job
    ensures sent[i].status in Delivered(sent, job, received, upTo)
    decreases upTo
  {
    if i < upTo - 1 { DeliveredContains(sent, job, received, upTo - 1, i); }
  }

  /** At most two events, `running` before a terminal one. */
  predicate RunningThenTerminal(d: seq<JobStatus>) {
    && |d| <= 2
    && (|d| == 2 ==> d[0].Running? && !d[1].Running?)
    && forall k :: 0 <= k < |d| ==> !d[k].Queued?
  }

  lemma {:induction false} DeliveredInOrder(sent: seq<Event>, job: string, received: set<nat>, upTo: nat)
    requires upTo <= |sent| && SentInOrder(sent)
    requires forall i: nat :: i < |sent| ==> !sent[i].status.Queued?
    ensures RunningThenTerminal(Delivered(sent, job, received, upTo))
    decreases upTo
  {
    if upTo > 0 {
      DeliveredInOrder(sent, job, received, upTo - 1);
      var before := Delivered(sent, job, received, upTo - 1);
      if upTo - 1 in received && sent[upTo - 1].id == job {
        if before != [] {
          DeliveredElements(sent, job, received, upTo - 1, |before| - 1);
        }
        assert Delivered(sent, job, received, upTo) == before + [sent[upTo - 1].status];
      } else {
        assert Delivered(sent, job, received, upTo) == before + [] == before;
      }
    }
  }

  lemma SnapshotThenEvents(snapshot: JobStatus, d: seq<JobStatus>)
    requires RunningThenTerminal(d) && !IsTerminal(snapshot)
    ensures Ordered([snapshot] + d)
    ensures forall k :: 0 <= k < |d| ==> !IsTerminal(([snapshot] + d)[k])
  {
  }

  /** After a snapshot that is not terminal, the items are in order and at most the last one is terminal. */
  lemma ItemsAreOrdered(w: World)
    requires WorldOk(w) && w.u.Live? && !IsTerminal(w.u.snapshot)
    ensures Ordered(Items(w))
    ensures forall k :: 0 <= k < |Items(w)| - 1 ==> !IsTerminal(Items(w)[k])
  {
    var u := w.u;
    forall i: nat | i < |w.s.sent| ensures !w.s.sent[i].status.Queued? {
      assert SentIsTrue(w.s, i);
    }
    DeliveredInOrder(w.s.sent, u.job, u.received, u.cursor);
    SnapshotThenEvents(u.snapshot, Delivered(w.s.sent, u.job, u.received, u.cursor));
  }

  ghost predicate Start(w: World) { Initial(w.s) && w.u.NotAsked? }

  lemma WorldReaches(w0: World, steps: seq<WorldStep>)
    requires Start(w0) && Runs(w0, steps)
    ensures WorldOk(Finally(w0, steps))
  {
    InitialIsSafe(w0.s);
    assert forall w: nat :: w < |w0.s.workers| ==> w0.s.workers[w].Idle?;
    WorldAlways(w0, steps);
  }

  /** Never back to queued, and nothing after a terminal status. */
  predicate NeverBack(shown: seq<JobStatus>) {
    && (forall i, j :: 0 <= i < j < |shown| && shown[j].Queued? ==> shown[i].Queued?)
    && (forall i :: 0 <= i < |shown| - 1 ==> shown[i].Queued? || shown[i].Running?)
  }

  lemma EmittedInOrder(items: seq<JobStatus>)
    requires items != [] && (IsTerminal(items[0]) || Ordered(items))
    ensures var shown := AcceptAll(items).emitted;
      shown != [] && shown <= items && shown[0] == items[0] && NeverBack(shown)
  {
    AcceptAllIsAPrefix(items);
    var shown := AcceptAll(items).emitted;
    assert shown != [];
    assert forall i :: 0 <= i < |shown| - 1 ==> shown[i] == items[i] && !IsTerminal(items[i]);
    forall i, j | 0 <= i < j < |shown| && shown[j].Queued? ensures shown[i].Queued? {
      assert Rank(NameOf(items[i])) <= Rank(NameOf(items[j]));
    }
  }

  /** A terminal status among the items is what the row reads back as. */
  lemma TerminalItemIsCommitted(w: World, k: nat)
    requires WorldOk(w) && w.u.Live? && k < |Items(w)| && IsTerminal(Items(w)[k]) && w.u.job in w.s.jobs
    ensures StatusOf(w.s.jobs[w.u.job]) == Items(w)[k]
  {
    if k > 0 {
      DeliveredElements(w.s.sent, w.u.job, w.u.received, w.u.cursor, k - 1);
      var i: nat :| i < w.u.cursor && i in w.u.received && w.s.sent[i].id == w.u.job && w.s.sent[i].status == Items(w)[k];
      assert SentIsTrue(w.s, i);
    }
  }

  /** What a subscriber has been shown is in order and true of the row. */
  ghost predicate ShownInOrder(w: World)
    requires w.u.Live?
  {
    var shown := w.u.out.emitted;
    && shown != [] && shown[0] == w.u.snapshot && NeverBack(shown)
    && (IsTerminal(shown[|shown| - 1]) && w.u.job in w.s.jobs ==>
          StatusOf(w.s.jobs[w.u.job]) == shown[|shown| - 1])
  }

  lemma WorldShowsInOrder(w: World)
    requires WorldOk(w) && w.u.Live? && w.u.begun
    ensures ShownInOrder(w)
  {
    if !IsTerminal(w.u.snapshot) {
      ItemsAreOrdered(w);
    }
    EmittedInOrder(Items(w));
    var last := |w.u.out.emitted| - 1;
    if IsTerminal(w.u.out.emitted[last]) && w.u.job in w.s.jobs {
      TerminalItemIsCommitted(w, last);
    }
  }

  /**
   * For every interleaving of load, subscribe, commits, publishes and lag: the stream starts with the
   * snapshot and never goes back in the order queued, running, terminal; a terminal status comes last
   * and once, and it is what the row, if it still exists, reads back as.
   */
  lemma StatusesNeverGoBack(w0: World, steps: seq<WorldStep>)
    requires Start(w0) && Runs(w0, steps) && Finally(w0, steps).u.Live? && Finally(w0, steps).u.begun
    ensures ShownInOrder(Finally(w0, steps))
  {
    WorldReaches(w0, steps);
    WorldShowsInOrder(Finally(w0, steps));
  }
}
