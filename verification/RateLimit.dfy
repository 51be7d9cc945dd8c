/**
 * The hourly limit: each submission counts the user's surviving rows of the
 * last hour, and inserts its own row only later, so several submissions of the
 * same user can be between the two at once.
 */
module RateLimit {
  import opened Basics
  import opened JobStatuses
  import Tables

  /** One hour in the database clock's unit, microseconds. */
  const HOUR := 3_600_000_000

  /** One user's surviving rows, by id, with their creation times. */
  type Rows<!Id> = map<Id, int>

  /** Rows created in the half-open hour that ends at `end`. */
  function InHour<Id>(rows: Rows<Id>, end: int): set<Id> {
    set id | id in rows && end - 3_600_000_000 < rows[id] <= end
  }

  /** `created_at > now() - interval '1 hour'`. */
  function Recent<Id>(rows: Rows<Id>, now: int): set<Id> {
    set id | id in rows && rows[id] > now - HOUR
  }

  function CountLastHour<Id>(rows: Rows<Id>, now: int): nat { |Recent(rows, now)| }

  datatype Verdict = Allowed | Denied

  function Check(used: nat, perHour: nat): Verdict {
    if perHour == 0 then Allowed else if used >= perHour then Denied else Allowed
  }

  /** What the interface shows; `None` when no limit is configured. */
  function Remaining(used: nat, perHour: nat): Option<nat> {
    if perHour == 0 then None else Some(if used >= perHour then 0 else perHour - used)
  }

  /** The number shown is zero exactly when the next submission would be refused. */
  lemma RemainingPredictsCheck(used: nat, perHour: nat)
    ensures Remaining(used, perHour) == Some(0) <==> Check(used, perHour) == Denied
    ensures Remaining(used, perHour).Some? && Remaining(used, perHour).value > 0 ==>
      Remaining(used + 1, perHour) == Some(Remaining(used, perHour).value - 1)
  {
  }

  /** A row stops counting the moment it is an hour old. */
  lemma AllowedAgainAfterAnHour<Id>(rows: Rows<Id>, now: int, perHour: nat)
    requires forall id :: id in rows ==> rows[id] <= now - 3_600_000_000
    ensures Check(CountLastHour(rows, now), perHour) == Allowed
  {
    assert Recent(rows, now) == {};
  }

  datatype State<!Id> = State(now: int, rows: Rows<Id>, inFlight: set<nat>)

  datatype Step<Id> =
    | Tick(elapsed: nat)
    | Submit(h: nat)              // `check`; the handler goes on only when it is allowed
    | Insert(h: nat, id: Id)      // `create`, at the current time
    | GiveUp(h: nat)              // the handler fails between the two
    | Delete(id: Id)

  /** At most `k` of the user's submissions are between check and insert at any time. */
  predicate Enabled<Id>(s: State<Id>, e: Step<Id>, k: nat) {
    match e
    case Tick(_) => true
    case Submit(h) => h !in s.inFlight && |s.inFlight| < k
    case Insert(h, id) => h in s.inFlight && id !in s.rows
    case GiveUp(h) => h in s.inFlight
    case Delete(id) => id in s.rows
  }

  function Next<Id>(s: State<Id>, e: Step<Id>, perHour: nat): State<Id> {
    match e
    case Tick(elapsed) => s.(now := s.now + elapsed)
    case Submit(h) =>
      if Check(CountLastHour(s.rows, s.now), perHour).Allowed? then s.(inFlight := s.inFlight + {h}) else s
    case Insert(h, id) => s.(rows := s.rows[id := s.now], inFlight := s.inFlight - {h})
    case GiveUp(h) => s.(inFlight := s.inFlight - {h})
    case Delete(id) => s.(rows := s.rows - {id})
  }

  predicate ValidRun<Id>(s: State<Id>, steps: seq<Step<Id>>, perHour: nat, k: nat)
    decreases steps
  {
    steps == [] || (Enabled(s, steps[0], k) && ValidRun(Next(s, steps[0], perHour), steps[1..], perHour, k))
  }

  function After<Id>(s: State<Id>, steps: seq<Step<Id>>, perHour: nat): State<Id>
    decreases steps
  {
    if steps == [] then s else After(Next(s, steps[0], perHour), steps[1..], perHour)
  }

  predicate Initial<Id>(s: State<Id>) { s.rows == map[] && s.inFlight == {} }

  /** The current hour, with every submission in flight already added, stays below `bound`. */
  ghost predicate Bounded<Id>(s: State<Id>, bound: nat) {
    && (forall id :: id in s.rows ==> s.rows[id] <= s.now)
    && CountLastHour(s.rows, s.now) + |s.inFlight| <= bound
    && (forall end: int :: |InHour(s.rows, end)| <= bound)
  }

  lemma TickKeepsBound<Id>(s: State<Id>, elapsed: nat, bound: nat)
    requires Bounded(s, bound)
    ensures Bounded(s.(now := s.now + elapsed), bound)
  {
    SubsetIsNoLarger(Recent(s.rows, s.now + elapsed), Recent(s.rows, s.now));
  }

  lemma InsertKeepsBound<Id>(s: State<Id>, h: nat, id: Id, bound: nat)
    requires Bounded(s, bound) && h in s.inFlight && id !in s.rows
    ensures Bounded(s.(rows := s.rows[id := s.now], inFlight := s.inFlight - {h}), bound)
  {
    var rows := s.rows[id := s.now];
    var before := Recent(s.rows, s.now);
    var after := Recent(rows, s.now);
    assert after == before + {id};
    assert |after| == |before| + 1;
    assert |s.inFlight - {h}| == |s.inFlight| - 1;
    forall end: int ensures |InHour(rows, end)| <= bound {
      if s.now <= end {
        SubsetIsNoLarger(InHour(rows, end), after);
      } else {
        assert InHour(rows, end) == InHour(s.rows, end);
      }
    }
  }

  lemma DeleteKeepsBound<Id>(s: State<Id>, id: Id, bound: nat)
    requires Bounded(s, bound)
    ensures Bounded(s.(rows := s.rows - {id}), bound)
  {
    var rows := s.rows - {id};
    SubsetIsNoLarger(Recent(rows, s.now), Recent(s.rows, s.now));
    forall end: int ensures |InHour(rows, end)| <= bound {
      SubsetIsNoLarger(InHour(rows, end), InHour(s.rows, end));
    }
  }

  lemma StepKeepsBound<Id>(s: State<Id>, e: Step<Id>, perHour: nat, k: nat)
    requires 1 <= perHour && 1 <= k && Bounded(s, perHour + k - 1) && Enabled(s, e, k)
    ensures Bounded(Next(s, e, perHour), perHour + k - 1)
  {
    match e
    case Tick(elapsed) => TickKeepsBound(s, elapsed, perHour + k - 1);
    case Submit(h) => assert |s.inFlight + {h}| == |s.inFlight| + 1;
    case Insert(h, id) => InsertKeepsBound(s, h, id, perHour + k - 1);
    case GiveUp(h) => assert |s.inFlight - {h}| == |s.inFlight| - 1;
    case Delete(id) => DeleteKeepsBound(s, id, perHour + k - 1);
  }

  lemma {:induction false} RunKeepsBound<Id>(s: State<Id>, steps: seq<Step<Id>>, perHour: nat, k: nat)
    requires 1 <= perHour && 1 <= k && Bounded(s, perHour + k - 1) && ValidRun(s, steps, perHour, k)
    ensures Bounded(After(s, steps, perHour), perHour + k - 1)
    decreases steps
  {
    if steps != [] {
      StepKeepsBound(s, steps[0], perHour, k);
      RunKeepsBound(Next(s, steps[0], perHour), steps[1..], perHour, k);
    }
  }

  /**
   * With at most `k` submissions of one user between check and insert, no hour whatsoever holds more
   * than `perHour + k - 1` of the user's surviving rows.
   */
  lemma AnyHourIsBounded<Id>(s: State<Id>, steps: seq<Step<Id>>, perHour: nat, k: nat, end: int)
    requires Initial(s) && 1 <= perHour && 1 <= k && ValidRun(s, steps, perHour, k)
    ensures |InHour(After(s, steps, perHour).rows, end)| <= perHour + k - 1
  {
    assert forall e: int :: InHour(s.rows, e) == {};
    assert Recent(s.rows, s.now) == {};
    RunKeepsBound(s, steps, perHour, k);
    assert Bounded(After(s, steps, perHour), perHour + k - 1);
  }

  /** The run leads from one state to the other. */
  ghost predicate Leads<Id>(s: State<Id>, steps: seq<Step<Id>>, t: State<Id>, perHour: nat, k: nat) {
    ValidRun(s, steps, perHour, k) && After(s, steps, perHour) == t
  }

  lemma {:induction false} RunsCompose<Id>(s: State<Id>, first: seq<Step<Id>>, m: State<Id>, second: seq<Step<Id>>,
                                           t: State<Id>, perHour: nat, k: nat)
    requires Leads(s, first, m, perHour, k) && Leads(m, second, t, perHour, k)
    ensures Leads(s, first + second, t, perHour, k)
    decreases first
  {
    if first == [] {
      assert first + second == second;
    } else {
      assert (first + second)[1..] == first[1..] + second;
      RunsCompose(Next(s, first[0], perHour), first[1..], m, second, t, perHour, k);
    }
  }

  // ---------------------------------------------------------------- the rows counted are the table's

  /** One user's rows of the `jobs` table. */
  function UserRows(jobs: Tables.Jobs, user: nat): Rows<string> {
    map id | id in jobs && jobs[id].user == user :: jobs[id].createdAt
  }

  /** Only the user's own inserts add to what is counted, at the current time. */
  lemma InsertsSeenByTheLimit(jobs: Tables.Jobs, user: nat, id: string, owner: nat, media: MediaType, now: int)
    requires id !in jobs
    ensures UserRows(jobs[id := Tables.NewRow(owner, media, now)], user)
      == if owner == user then UserRows(jobs, user)[id := now] else UserRows(jobs, user)
  {
  }

  /** Claims and outcomes change nothing that is counted. */
  lemma UpdatesUnseenByTheLimit(jobs: Tables.Jobs, user: nat, id: string, status: JobStatus, now: int)
    ensures UserRows(Tables.MarkRunning(jobs, id, now), user) == UserRows(jobs, user)
    ensures UserRows(Tables.Finish(jobs, id, status, now), user) == UserRows(jobs, user)
  {
  }

  lemma HidingUnseenByTheLimit(jobs: Tables.Jobs, user: nat, id: string, owner: nat, hidden: bool)
    ensures UserRows(Tables.WithHidden(jobs, id, owner, hidden), user) == UserRows(jobs, user)
  {
  }

  lemma RestartUnseenByTheLimit(jobs: Tables.Jobs, user: nat, status: JobStatus, now: int)
    ensures UserRows(Tables.FailOrphans(jobs, status, now), user) == UserRows(jobs, user)
  {
  }

  /** Deletions by the user and by the retention sweep only take rows away. */
  lemma DeletionsSeenByTheLimit(jobs: Tables.Jobs, user: nat, id: string, owner: nat, now: int, retention: nat)
    ensures UserRows(Tables.DeleteOwned(jobs, id, owner), user)
      == if owner == user then UserRows(jobs, user) - {id} else UserRows(jobs, user)
    ensures UserRows(Tables.DeleteExpired(jobs, now, retention), user)
      == UserRows(jobs, user) - set i | i in jobs && Tables.Expired(jobs[i], now, retention)
  {
  }

  // ---------------------------------------------------------------- the bound is reached

  /** The first `n` numbers. */
  function UpTo(n: nat): set<nat> {
    set i: nat | i < n && Below(i, n)
  }

  predicate Below(i: nat, n: nat) { i < n }

  lemma {:induction false} UpToCounts(n: nat)
    ensures |UpTo(n)| == n
  {
    if n > 0 {
      UpToCounts(n - 1);
      assert UpTo(n) == UpTo(n - 1) + {n - 1};
    }
  }

  /** A state at time zero with rows 0..n-1 and submissions 0..f-1 in flight. */
  function Burst(n: nat, f: nat): State<nat> {
    State(0, map i | i in UpTo(n) :: 0, UpTo(f))
  }

  lemma BurstCount(n: nat, f: nat)
    ensures CountLastHour(Burst(n, f).rows, 0) == n && |Burst(n, f).inFlight| == f
    ensures InHour(Burst(n, f).rows, 0) == UpTo(n) && |UpTo(n)| == n
  {
    UpToCounts(n);
    UpToCounts(f);
    assert Recent(Burst(n, f).rows, 0) == UpTo(n);
    assert InHour(Burst(n, f).rows, 0) == UpTo(n);
  }

  lemma ChecksOneMore(n: nat, f: nat, perHour: nat, k: nat) returns (steps: seq<Step<nat>>)
    requires n < perHour && 0 < f <= k
    ensures Leads(Burst(n, f - 1), steps, Burst(n, f), perHour, k)
  {
    var s := Burst(n, f - 1);
    BurstCount(n, f - 1);
    assert UpTo(f) == UpTo(f - 1) + {f - 1};
    assert Next(s, Submit(f - 1), perHour) == Burst(n, f);
    steps := [Submit(f - 1)];
    assert steps[1..] == [];
  }

  lemma InsertsOneMore(n: nat, f: nat, perHour: nat, k: nat) returns (steps: seq<Step<nat>>)
    requires 0 < f
    ensures Leads(Burst(n, f), steps, Burst(n + 1, f - 1), perHour, k)
  {
    var s := Burst(n, f);
    var e := Insert(f - 1, n);
    assert UpTo(f - 1) == UpTo(f) - {f - 1};
    assert UpTo(n + 1) == UpTo(n) + {n};
    assert Next(s, e, perHour) == Burst(n + 1, f - 1);
    steps := [e];
    assert steps[1..] == [];
  }

  /** One submission after another, each inserted before the next is checked. */
  lemma {:induction false} SerialFill(n: nat, perHour: nat, k: nat) returns (steps: seq<Step<nat>>)
    requires n <= perHour && 1 <= k
    ensures Leads(Burst(0, 0), steps, Burst(n, 0), perHour, k)
  {
    if n == 0 {
      steps := [];
    } else {
      var before := SerialFill(n - 1, perHour, k);
      var check := ChecksOneMore(n - 1, 1, perHour, k);
      var insert := InsertsOneMore(n - 1, 1, perHour, k);
      RunsCompose(Burst(0, 0), before, Burst(n - 1, 0), check, Burst(n - 1, 1), perHour, k);
      RunsCompose(Burst(0, 0), before + check, Burst(n - 1, 1), insert, Burst(n, 0), perHour, k);
      steps := before + check + insert;
    }
  }

  /** Submissions that all pass the check before any inserts. */
  lemma {:induction false} CheckTogether(n: nat, f: nat, perHour: nat, k: nat) returns (steps: seq<Step<nat>>)
    requires n < perHour && f <= k
    ensures Leads(Burst(n, 0), steps, Burst(n, f), perHour, k)
    decreases f
  {
    if f == 0 {
      steps := [];
    } else {
      var before := CheckTogether(n, f - 1, perHour, k);
      var last := ChecksOneMore(n, f, perHour, k);
      RunsCompose(Burst(n, 0), before, Burst(n, f - 1), last, Burst(n, f), perHour, k);
      steps := before + last;
    }
  }

  lemma {:induction false} InsertTogether(n: nat, f: nat, perHour: nat, k: nat) returns (steps: seq<Step<nat>>)
    ensures Leads(Burst(n, f), steps, Burst(n + f, 0), perHour, k)
    decreases f
  {
    if f == 0 {
      steps := [];
    } else {
      var one := InsertsOneMore(n, f, perHour, k);
      var rest := InsertTogether(n + 1, f - 1, perHour, k);
      RunsCompose(Burst(n, f), one, Burst(n + 1, f - 1), rest, Burst(n + f, 0), perHour, k);
      steps := one + rest;
    }
  }

  /** The bound is exact: for every limit and every `k`, some schedule fills an hour with that many rows. */
  lemma BoundIsReached(perHour: nat, k: nat) returns (s: State<nat>, steps: seq<Step<nat>>)
    requires 1 <= perHour && 1 <= k
    ensures Initial(s) && ValidRun(s, steps, perHour, k)
    ensures |InHour(After(s, steps, perHour).rows, 0)| == perHour + k - 1
  {
    s := Burst(0, 0);
    var fill := SerialFill(perHour - 1, perHour, k);
    var check := CheckTogether(perHour - 1, k, perHour, k);
    var insert := InsertTogether(perHour - 1, k, perHour, k);
    RunsCompose(s, fill, Burst(perHour - 1, 0), check, Burst(perHour - 1, k), perHour, k);
    RunsCompose(s, fill + check, Burst(perHour - 1, k), insert, Burst(perHour - 1 + k, 0), perHour, k);
    steps := fill + check + insert;
    BurstCount(perHour - 1 + k, 0);
  }

  /** The configured limit holds in every hour of every schedule exactly when submissions are serial. */
  lemma LimitHoldsExactlyWhenSerial(perHour: nat, k: nat)
    requires 1 <= perHour && 1 <= k
    ensures (forall s: State<nat>, steps: seq<Step<nat>>, end: int ::
               Initial(s) && ValidRun(s, steps, perHour, k) ==> |InHour(After(s, steps, perHour).rows, end)| <= perHour)
            <==> k == 1
  {
    if k == 1 {
      forall s: State<nat>, steps: seq<Step<nat>>, end: int | Initial(s) && ValidRun(s, steps, perHour, k)
        ensures |InHour(After(s, steps, perHour).rows, end)| <= perHour
      {
        AnyHourIsBounded(s, steps, perHour, k, end);
      }
    } else {
      var s, steps := BoundIsReached(perHour, k);
      assert |InHour(After(s, steps, perHour).rows, 0)| > perHour;
    }
  }
}
