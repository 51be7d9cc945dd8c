/**
 * The hourly limit in front of the protocol: a handler checks the table before it may
 * insert, and everything the protocol does goes on in between. Seen by one user, every such
 * run is a run of the limit's own machine, so its bound holds of the table.
 */
module LimitedProtocol {
  import opened Basics
  import opened JobStatuses
  import opened Tables
  import opened Protocol
  import opened ProtocolSafety
  import opened ProtocolMedia
  import opened JobGuarantees
  import Limit = RateLimit

  /** `checked`: the handlers between `check` and `create`, with their users. */
  datatype Gate = Gate(s: State, checked: map<nat, nat>)

  datatype GateStep =
    | CheckLimit(h: nat, user: nat)
    | GiveUpAfterCheck(h: nat)
    | Service(e: Step)

  function InFlight(checked: map<nat, nat>, user: nat): set<nat> {
    set h | h in checked && checked[h] == user
  }

  predicate Creates(e: Step) { e.OfHandler? && e.handler.Create? }

  /** At most `k` of a user's handlers are between check and insert, and only those insert. */
  predicate Possible(g: Gate, e: GateStep, k: nat) {
    match e
    case CheckLimit(h, user) => g.s.up && h !in g.checked && |InFlight(g.checked, user)| < k
    case GiveUpAfterCheck(h) => h in g.checked
    case Service(step) =>
      Enabled(g.s, step) && (Creates(step) ==> step.h in g.checked && g.checked[step.h] == step.handler.user)
  }

  function CheckedBy(g: Gate, h: nat, user: nat, perHour: nat): map<nat, nat> {
    if Limit.Check(Limit.CountLastHour(Limit.UserRows(g.s.jobs, user), g.s.now), perHour).Allowed?
    then g.checked[h := user] else g.checked
  }

  function CheckedAfter(checked: map<nat, nat>, e: Step): map<nat, nat> {
    if Creates(e) then checked - {e.h} else if e.Crash? then map[] else checked
  }

  function Onward(g: Gate, e: GateStep, perHour: nat, k: nat): Gate
    requires Possible(g, e, k)
  {
    match e
    case CheckLimit(h, user) => g.(checked := CheckedBy(g, h, user, perHour))
    case GiveUpAfterCheck(h) => g.(checked := g.checked - {h})
    case Service(step) => Gate(Next(g.s, step), CheckedAfter(g.checked, step))
  }

  predicate Runs(g: Gate, steps: seq<GateStep>, perHour: nat, k: nat)
    decreases steps
  {
    steps == [] || (Possible(g, steps[0], k) && Runs(Onward(g, steps[0], perHour, k), steps[1..], perHour, k))
  }

  function Finally(g: Gate, steps: seq<GateStep>, perHour: nat, k: nat): Gate
    requires Runs(g, steps, perHour, k)
    decreases steps
  {
    if steps == [] then g else Finally(Onward(g, steps[0], perHour, k), steps[1..], perHour, k)
  }

  /** What the limit's machine sees of one user. */
  function View(g: Gate, user: nat): Limit.State<string> {
    Limit.State(g.s.now, Limit.UserRows(g.s.jobs, user), InFlight(g.checked, user))
  }

  // ---------------------------------------------------------------- several small steps at once

  lemma Nothing(v: Limit.State<string>, perHour: nat, k: nat)
    ensures Limit.Leads(v, [], v, perHour, k)
  {
  }

  lemma Once(v: Limit.State<string>, e: Limit.Step<string>, perHour: nat, k: nat)
    requires Limit.Enabled(v, e, k)
    ensures Limit.Leads(v, [e], Limit.Next(v, e, perHour), perHour, k)
  {
    assert [e][1..] == [];
  }

  /** A sweep takes several rows away. */
  lemma {:induction false} DeletesMany(v: Limit.State<string>, gone: set<string>, perHour: nat, k: nat)
    returns (steps: seq<Limit.Step<string>>)
    requires gone <= v.rows.Keys
    ensures Limit.Leads(v, steps, v.(rows := v.rows - gone), perHour, k)
    decreases gone
  {
    if gone == {} {
      Nothing(v, perHour, k);
      assert v.rows - gone == v.rows;
      steps := [];
    } else {
      var id :| id in gone;
      var next := v.(rows := v.rows - {id});
      Once(v, Limit.Delete(id), perHour, k);
      var rest := DeletesMany(next, gone - {id}, perHour, k);
      assert next.rows - (gone - {id}) == v.rows - gone;
      Limit.RunsCompose(v, [Limit.Delete(id)], next, rest, v.(rows := v.rows - gone), perHour, k);
      steps := [Limit.Delete(id)] + rest;
    }
  }

  /** A crash takes every handler away. */
  lemma {:induction false} GivesUpMany(v: Limit.State<string>, perHour: nat, k: nat)
    returns (steps: seq<Limit.Step<string>>)
    ensures Limit.Leads(v, steps, v.(inFlight := {}), perHour, k)
    decreases v.inFlight
  {
    if v.inFlight == {} {
      Nothing(v, perHour, k);
      steps := [];
    } else {
      var h :| h in v.inFlight;
      var next := v.(inFlight := v.inFlight - {h});
      Once(v, Limit.GiveUp(h), perHour, k);
      var rest := GivesUpMany(next, perHour, k);
      Limit.RunsCompose(v, [Limit.GiveUp(h)], next, rest, v.(inFlight := {}), perHour, k);
      steps := [Limit.GiveUp(h)] + rest;
    }
  }

  // ---------------------------------------------------------------- what a step does to the counted rows

  lemma HandlerRows(s: State, h: nat, e: HandlerStep, user: nat)
    requires HandlerEnabled(s, h, e) && !e.Create?
    ensures Limit.UserRows(HandlerNext(s, h, e).jobs, user) == Limit.UserRows(s.jobs, user)
  {
    Limit.UpdatesUnseenByTheLimit(s.jobs, user, s.handlers[h].id, QUEUE_FULL, s.now);
  }

  lemma WorkerRows(s: State, w: nat, e: WorkerStep, user: nat)
    requires WorkerEnabled(s, w, e)
    ensures Limit.UserRows(WorkerNext(s, w, e).jobs, user) == Limit.UserRows(s.jobs, user)
  {
    var me := s.workers[w];
    if me.Received? {
      Limit.UpdatesUnseenByTheLimit(s.jobs, user, me.id, INTERNAL_ERROR, s.now);
    } else if me.Finishing? {
      Limit.UpdatesUnseenByTheLimit(s.jobs, user, me.id, me.outcome, s.now);
    }
  }

  /** The rows of `user` that a deletion or a sweep removes. */
  function Removed(s: State, t: State, user: nat): set<string> {
    Limit.UserRows(s.jobs, user).Keys - Limit.UserRows(t.jobs, user).Keys
  }

  lemma DeleterRows(s: State, d: nat, e: DeleterStep, user: nat)
    requires DeleterEnabled(s, d, e)
    ensures var t := DeleterNext(s, d, e);
      Limit.UserRows(t.jobs, user) == Limit.UserRows(s.jobs, user) - Removed(s, t, user)
  {
    if e.DeleteRows? {
      Limit.DeletionsSeenByTheLimit(s.jobs, user, s.deleters[d].id, s.deleters[d].user, s.now, s.retention);
    }
  }

  lemma SweeperRows(s: State, e: SweeperStep, user: nat)
    requires SweeperEnabled(s, e)
    ensures var t := SweeperNext(s, e);
      Limit.UserRows(t.jobs, user) == Limit.UserRows(s.jobs, user) - Removed(s, t, user)
  {
    if e.DeleteExpiredRows? {
      Limit.DeletionsSeenByTheLimit(s.jobs, user, "", 0, s.now, s.retention);
    }
  }

  // ---------------------------------------------------------------- each step is simulated

  lemma OwnCheckSimulated(g: Gate, h: nat, user: nat, perHour: nat, k: nat)
    requires Possible(g, CheckLimit(h, user), k)
    ensures Limit.Leads(View(g, user), [Limit.Submit(h)],
                        View(Onward(g, CheckLimit(h, user), perHour, k), user), perHour, k)
  {
    var v := View(g, user);
    Once(v, Limit.Submit(h), perHour, k);
    assert InFlight(g.checked[h := user], user) == v.inFlight + {h};
  }

  lemma OthersCheckUnseen(g: Gate, h: nat, who: nat, user: nat, perHour: nat, k: nat)
    requires Possible(g, CheckLimit(h, who), k) && who != user
    ensures View(Onward(g, CheckLimit(h, who), perHour, k), user) == View(g, user)
  {
    assert InFlight(g.checked[h := who], user) == InFlight(g.checked, user);
  }

  lemma CheckSimulated(g: Gate, h: nat, who: nat, user: nat, perHour: nat, k: nat)
    returns (steps: seq<Limit.Step<string>>)
    requires Possible(g, CheckLimit(h, who), k)
    ensures Limit.Leads(View(g, user), steps, View(Onward(g, CheckLimit(h, who), perHour, k), user), perHour, k)
  {
    if who == user {
      steps := [Limit.Submit(h)];
      OwnCheckSimulated(g, h, user, perHour, k);
    } else {
      steps := [];
      OthersCheckUnseen(g, h, who, user, perHour, k);
      Nothing(View(g, user), perHour, k);
    }
  }

  lemma GiveUpSimulated(g: Gate, h: nat, user: nat, perHour: nat, k: nat) returns (steps: seq<Limit.Step<string>>)
    requires h in g.checked
    ensures Limit.Leads(View(g, user), steps, View(g.(checked := g.checked - {h}), user), perHour, k)
  {
    var v := View(g, user);
    if g.checked[h] == user {
      steps := [Limit.GiveUp(h)];
      Once(v, Limit.GiveUp(h), perHour, k);
      assert InFlight(g.checked - {h}, user) == v.inFlight - {h};
    } else {
      steps := [];
      Nothing(v, perHour, k);
      assert InFlight(g.checked - {h}, user) == v.inFlight;
    }
  }

  lemma CreateSimulated(g: Gate, e: Step, user: nat, perHour: nat, k: nat) returns (steps: seq<Limit.Step<string>>)
    requires RowsOk(g.s.jobs, g.s.history, g.s.now) && Creates(e) && Possible(g, Service(e), k)
    ensures Limit.Leads(View(g, user), steps, View(Onward(g, Service(e), perHour, k), user), perHour, k)
  {
    var v := View(g, user);
    var c := e.handler;
    Limit.InsertsSeenByTheLimit(g.s.jobs, user, c.id, c.user, c.media, g.s.now);
    if c.user == user {
      steps := [Limit.Insert(e.h, c.id)];
      Once(v, Limit.Insert(e.h, c.id), perHour, k);
      assert InFlight(g.checked - {e.h}, user) == v.inFlight - {e.h};
    } else {
      steps := [];
      Nothing(v, perHour, k);
      assert InFlight(g.checked - {e.h}, user) == v.inFlight;
    }
  }

  /** Rows may leave; clock and handlers stay. */
  lemma RemovalSimulated(g: Gate, t: State, user: nat, perHour: nat, k: nat) returns (steps: seq<Limit.Step<string>>)
    requires t.now == g.s.now
    requires Limit.UserRows(t.jobs, user) == Limit.UserRows(g.s.jobs, user) - Removed(g.s, t, user)
    ensures Limit.Leads(View(g, user), steps, View(Gate(t, g.checked), user), perHour, k)
  {
    steps := DeletesMany(View(g, user), Removed(g.s, t, user), perHour, k);
  }

  lemma UnseenSimulated(g: Gate, t: State, user: nat, perHour: nat, k: nat)
    requires t.now == g.s.now && Limit.UserRows(t.jobs, user) == Limit.UserRows(g.s.jobs, user)
    ensures Limit.Leads(View(g, user), [], View(Gate(t, g.checked), user), perHour, k)
  {
    Nothing(View(g, user), perHour, k);
  }

  lemma ServiceSimulated(g: Gate, e: Step, user: nat, perHour: nat, k: nat) returns (steps: seq<Limit.Step<string>>)
    requires RowsOk(g.s.jobs, g.s.history, g.s.now) && Possible(g, Service(e), k)
    ensures Limit.Leads(View(g, user), steps, View(Onward(g, Service(e), perHour, k), user), perHour, k)
  {
    var s := g.s;
    steps := [];
    match e
    case Tick(elapsed) =>
      steps := [Limit.Tick(elapsed)];
      Once(View(g, user), Limit.Tick(elapsed), perHour, k);
    case OfHandler(h, step) =>
      if step.Create? {
        steps := CreateSimulated(g, e, user, perHour, k);
      } else {
        HandlerRows(s, h, step, user);
        HandlerFrame(s, h, step);
        UnseenSimulated(g, HandlerNext(s, h, step), user, perHour, k);
      }
    case OfWorker(w, step) =>
      WorkerRows(s, w, step, user);
      WorkerFrame(s, w, step);
      UnseenSimulated(g, WorkerNext(s, w, step), user, perHour, k);
    case OfDeleter(d, step) =>
      DeleterRows(s, d, step, user);
      steps := RemovalSimulated(g, DeleterNext(s, d, step), user, perHour, k);
    case OfSweeper(step) =>
      SweeperRows(s, step, user);
      steps := RemovalSimulated(g, SweeperNext(s, step), user, perHour, k);
    case Hide(id, owner, hidden) =>
      Limit.HidingUnseenByTheLimit(s.jobs, user, id, owner, hidden);
      UnseenSimulated(g, Next(s, e), user, perHour, k);
    case Redeliver(_) =>
      UnseenSimulated(g, Next(s, e), user, perHour, k);
    case Crash =>
      steps := GivesUpMany(View(g, user), perHour, k);
      assert InFlight(map[], user) == {};
    case Restart =>
      Limit.RestartUnseenByTheLimit(s.jobs, user, INTERRUPTED, s.now);
      UnseenSimulated(g, Restarted(s), user, perHour, k);
  }

  lemma StepSimulated(g: Gate, e: GateStep, user: nat, perHour: nat, k: nat) returns (steps: seq<Limit.Step<string>>)
    requires RowsOk(g.s.jobs, g.s.history, g.s.now) && Possible(g, e, k)
    ensures Limit.Leads(View(g, user), steps, View(Onward(g, e, perHour, k), user), perHour, k)
  {
    match e
    case CheckLimit(h, who) => steps := CheckSimulated(g, h, who, user, perHour, k);
    case GiveUpAfterCheck(h) => steps := GiveUpSimulated(g, h, user, perHour, k);
    case Service(step) => steps := ServiceSimulated(g, step, user, perHour, k);
  }

  /** Seen by one user, a run of the guarded protocol is a run of the limit's machine. */
  lemma {:induction false} RunSimulated(g: Gate, run: seq<GateStep>, user: nat, perHour: nat, k: nat)
    returns (steps: seq<Limit.Step<string>>)
    requires Sound(g.s) && Runs(g, run, perHour, k)
    ensures Limit.Leads(View(g, user), steps, View(Finally(g, run, perHour, k), user), perHour, k)
    decreases run
  {
    if run == [] {
      Nothing(View(g, user), perHour, k);
      steps := [];
    } else {
      var next := Onward(g, run[0], perHour, k);
      var first := StepSimulated(g, run[0], user, perHour, k);
      if run[0].Service? {
        SoundKept(g.s, run[0].e);
      }
      var rest := RunSimulated(next, run[1..], user, perHour, k);
      Limit.RunsCompose(View(g, user), first, View(next, user), rest, View(Finally(g, run, perHour, k), user), perHour, k);
      steps := first + rest;
    }
  }

  /**
   * Over any run of the guarded service - workers, deletions, sweeps, hiding, crashes and duplicate deliveries included -
   * no hour holds more than `perHour + k - 1` of a user's rows in the table.
   */
  lemma TableKeepsTheLimit(g0: Gate, run: seq<GateStep>, user: nat, perHour: nat, k: nat, end: int)
    requires Initial(g0.s) && g0.checked == map[] && 1 <= perHour && 1 <= k && Runs(g0, run, perHour, k)
    ensures |Limit.InHour(Limit.UserRows(Finally(g0, run, perHour, k).s.jobs, user), end)| <= perHour + k - 1
  {
    InitialIsSafe(g0.s);
    var steps := RunSimulated(g0, run, user, perHour, k);
    assert Limit.Initial(View(g0, user));
    Limit.AnyHourIsBounded(View(g0, user), steps, perHour, k, end);
  }
}
