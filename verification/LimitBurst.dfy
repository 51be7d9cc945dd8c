/**
 * The bound on the table is reached: several of a user's requests check the limit before any
 * of them inserts.
 */
module LimitBurst {
  import opened Basics
  import opened JobStatuses
  import opened Tables
  import opened BlobPaths
  import opened Protocol
  import opened ProtocolSafety
  import opened SampleRuns
  import opened LimitedProtocol
  import Limit = RateLimit

  // ---------------------------------------------------------------- enough different ids

  function Pow10(w: nat): nat { if w == 0 then 1 else 10 * Pow10(w - 1) }

  /** The last `w` decimal digits of `n`. */
  function Padded(n: nat, w: nat): (s: string)
    ensures |s| == w && forall c :: c in s ==> IsDigit(c)
  {
    if w == 0 then "" else Padded(n / 10, w - 1) + [Digit(n % 10)]
  }

  lemma {:induction false} PaddedDiffer(n: nat, m: nat, w: nat)
    requires n < Pow10(w) && m < Pow10(w) && Padded(n, w) == Padded(m, w)
    ensures n == m
  {
    if w > 0 {
      var a, b := Padded(n, w), Padded(m, w);
      assert a[..w - 1] == Padded(n / 10, w - 1) && b[..w - 1] == Padded(m / 10, w - 1);
      assert a[w - 1] == Digit(n % 10) && b[w - 1] == Digit(m % 10);
      PaddedDiffer(n / 10, m / 10, w - 1);
    }
  }

  /** There are at least this many ids. */
  function Many(): nat { Pow10(36) }

  lemma {:induction false} Pow10Grows(w: nat)
    requires w >= 10
    ensures Pow10(w) >= 10_000_000_000
  {
    if w == 10 {
      assert Pow10(4) == 10_000 && Pow10(7) == 10_000_000;
    } else {
      Pow10Grows(w - 1);
    }
  }

  function IdOf(n: nat): (id: string)
    ensures IsUuid(id)
  {
    Padded(n, 36)
  }

  lemma IdsDiffer(n: nat, m: nat)
    requires n < Many() && m < Many() && n != m
    ensures IdOf(n) != IdOf(m)
  {
    if IdOf(n) == IdOf(m) {
      PaddedDiffer(n, m, 36);
    }
  }

  // ---------------------------------------------------------------- the states of the burst

  /** The rows of the first `n` submissions, all of user 0 at time zero, their handlers still before the enqueue. */
  function Rows(n: nat): Jobs { if n == 0 then map[] else Rows(n - 1)[IdOf(n - 1) := NewRow(0, Image, 0)] }

  function Pasts(n: nat): Histories { if n == 0 then map[] else Pasts(n - 1)[IdOf(n - 1) := [QueuedName]] }

  function Desks(n: nat): map<nat, Handler> { if n == 0 then map[] else Desks(n - 1)[n - 1 := Inserted(IdOf(n - 1))] }

  predicate Within(h: nat, n: nat, f: nat) { n <= h < n + f }

  function Window(n: nat, f: nat): set<nat> { set h: nat | n <= h < n + f && Within(h, n, f) }

  /** The next `f` requests of user 0, between check and insert. */
  function Pending(n: nat, f: nat): map<nat, nat> { map h | h in Window(n, f) :: 0 }

  /** `n` submissions inserted, the next `f` between check and insert. */
  function GateAt(n: nat, f: nat): Gate { Gate(Scene(Rows(n), Pasts(n), [], Desks(n), CREW, []), Pending(n, f)) }

  lemma {:induction false} DeskKeys(n: nat)
    ensures forall h :: h in Desks(n) ==> h < n
  {
    if n > 0 {
      DeskKeys(n - 1);
    }
  }

  lemma {:induction false} NewIdIsNew(n: nat, m: nat)
    requires n <= m < Many()
    ensures IdOf(m) !in Rows(n) && IdOf(m) !in Pasts(n)
  {
    if n > 0 {
      NewIdIsNew(n - 1, m);
      IdsDiffer(n - 1, m);
    }
  }

  lemma OneMoreRow(jobs: Jobs, id: string, row: Row)
    requires id !in jobs
    ensures |jobs[id := row].Keys| == |jobs.Keys| + 1
  {
    assert jobs[id := row].Keys == jobs.Keys + {id};
  }

  predicate BringsNewId(n: nat) { IdOf(n) !in Rows(n) }

  lemma NextRow(n: nat)
    requires BringsNewId(n)
    ensures |Rows(n + 1).Keys| == |Rows(n).Keys| + 1
  {
    OneMoreRow(Rows(n), IdOf(n), NewRow(0, Image, 0));
  }

  lemma {:induction false} RowsCount(n: nat)
    requires forall m: nat :: m < n ==> BringsNewId(m)
    ensures |Rows(n).Keys| == n
  {
    if n > 0 {
      RowsCount(n - 1);
      NextRow(n - 1);
    }
  }

  lemma IdsAreNew(n: nat)
    requires n <= Many()
    ensures forall m: nat :: m < n ==> BringsNewId(m)
  {
    forall m: nat | m < n ensures BringsNewId(m) {
      NewIdIsNew(m, m);
    }
  }

  lemma {:induction false} RowsAreAlike(n: nat)
    ensures forall id :: id in Rows(n) ==> Rows(n)[id] == NewRow(0, Image, 0)
  {
    if n > 0 {
      RowsAreAlike(n - 1);
    }
  }

  /** Rows of user 0 at time zero are all counted. */
  lemma AllAreCounted(jobs: Jobs)
    requires forall id :: id in jobs ==> jobs[id] == NewRow(0, Image, 0)
    ensures Limit.Recent(Limit.UserRows(jobs, 0), 0) == jobs.Keys
    ensures Limit.InHour(Limit.UserRows(jobs, 0), 0) == jobs.Keys
  {
  }

  lemma BurstIsCounted(n: nat)
    requires n <= Many()
    ensures Limit.CountLastHour(Limit.UserRows(Rows(n), 0), 0) == n
    ensures |Limit.InHour(Limit.UserRows(Rows(n), 0), 0)| == n
  {
    IdsAreNew(n);
    RowsCount(n);
    RowsAreAlike(n);
    AllAreCounted(Rows(n));
  }

  lemma {:induction false} WindowCount(n: nat, f: nat)
    ensures |Window(n, f)| == f
    decreases f
  {
    if f > 0 {
      WindowCount(n, f - 1);
      assert Window(n, f) == Window(n, f - 1) + {n + f - 1};
    }
  }

  lemma PendingIsInFlight(n: nat, f: nat)
    ensures InFlight(Pending(n, f), 0) == Window(n, f) && |Window(n, f)| == f
  {
    WindowCount(n, f);
  }

  lemma PendingGrows(n: nat, f: nat)
    ensures n + f !in Pending(n, f) && Pending(n, f)[n + f := 0] == Pending(n, f + 1)
  {
    assert Window(n, f + 1) == Window(n, f) + {n + f};
  }

  lemma PendingShrinks(n: nat, f: nat)
    requires f > 0
    ensures n in Pending(n, f) && Pending(n, f)[n] == 0 && Pending(n, f) - {n} == Pending(n + 1, f - 1)
  {
    assert n in Window(n, f) && Within(n, n, f);
    assert Window(n + 1, f - 1) == Window(n, f) - {n};
  }

  // ---------------------------------------------------------------- runs

  ghost predicate Brings(g: Gate, run: seq<GateStep>, t: Gate, perHour: nat, k: nat) {
    Runs(g, run, perHour, k) && Finally(g, run, perHour, k) == t
  }

  lemma {:induction false} BringsOn(g: Gate, first: seq<GateStep>, m: Gate, second: seq<GateStep>, t: Gate, perHour: nat, k: nat)
    requires Brings(g, first, m, perHour, k) && Brings(m, second, t, perHour, k)
    ensures Brings(g, first + second, t, perHour, k)
    decreases first
  {
    if first == [] {
      assert first + second == second;
    } else {
      assert (first + second)[0] == first[0] && (first + second)[1..] == first[1..] + second;
      BringsOn(Onward(g, first[0], perHour, k), first[1..], m, second, t, perHour, k);
    }
  }

  lemma BringsOnce(g: Gate, e: GateStep, perHour: nat, k: nat)
    requires Possible(g, e, k)
    ensures Brings(g, [e], Onward(g, e, perHour, k), perHour, k)
  {
    var t := Onward(g, e, perHour, k);
    assert [e][0] == e && [e][1..] == [];
    assert Runs(t, [], perHour, k) && Finally(t, [], perHour, k) == t;
    assert Runs(g, [e], perHour, k);
    assert Finally(g, [e], perHour, k) == Finally(t, [e][1..], perHour, k);
  }

  /** Some run leads from one gate to the other. */
  ghost predicate CanReach(g: Gate, t: Gate, perHour: nat, k: nat) {
    exists run :: Brings(g, run, t, perHour, k)
  }

  lemma CanReachItself(g: Gate, perHour: nat, k: nat)
    ensures CanReach(g, g, perHour, k)
  {
    assert Brings(g, [], g, perHour, k);
  }

  lemma CanReachOnce(g: Gate, e: GateStep, t: Gate, perHour: nat, k: nat)
    requires Possible(g, e, k) && Onward(g, e, perHour, k) == t
    ensures CanReach(g, t, perHour, k)
  {
    BringsOnce(g, e, perHour, k);
  }

  lemma CanReachOn(g: Gate, m: Gate, t: Gate, perHour: nat, k: nat)
    requires CanReach(g, m, perHour, k) && CanReach(m, t, perHour, k)
    ensures CanReach(g, t, perHour, k)
  {
    var first :| Brings(g, first, m, perHour, k);
    var second :| Brings(m, second, t, perHour, k);
    BringsOn(g, first, m, second, t, perHour, k);
  }

  lemma CheckPasses(n: nat, perHour: nat)
    requires n < perHour && n <= Many()
    ensures Limit.Check(Limit.CountLastHour(Limit.UserRows(Rows(n), 0), 0), perHour).Allowed?
  {
    BurstIsCounted(n);
  }

  lemma OneMoreCheck(n: nat, f: nat, perHour: nat, k: nat)
    requires n < perHour && n <= Many() && f < k
    ensures CanReach(GateAt(n, f), GateAt(n, f + 1), perHour, k)
  {
    CheckPasses(n, perHour);
    PendingIsInFlight(n, f);
    PendingGrows(n, f);
    CanReachOnce(GateAt(n, f), CheckLimit(n + f, 0), GateAt(n, f + 1), perHour, k);
  }

  function Submission(n: nat): HandlerStep { Create(IdOf(n), 0, Image) }

  lemma InsertAddsRow(n: nat, f: nat)
    requires n < Many() && f > 0
    ensures var s := GateAt(n, f).s;
      s.up && HandlerEnabled(s, n, Submission(n)) && HandlerNext(s, n, Submission(n)) == GateAt(n + 1, f - 1).s
  {
    DeskKeys(n);
    NewIdIsNew(n, n);
    assert [] + [QueuedName] == [QueuedName];
  }

  lemma OneMoreInsert(n: nat, f: nat, perHour: nat, k: nat)
    requires n < Many() && f > 0
    ensures CanReach(GateAt(n, f), GateAt(n + 1, f - 1), perHour, k)
  {
    InsertAddsRow(n, f);
    PendingShrinks(n, f);
    CanReachOnce(GateAt(n, f), Service(OfHandler(n, Submission(n))), GateAt(n + 1, f - 1), perHour, k);
  }

  // What follows needs only how gates follow each other, so it speaks of any gates numbered like these.

  type Gates = (nat, nat) -> Gate

  ghost predicate CheckFollows(gate: Gates, n: nat, f: nat, perHour: nat, k: nat) {
    CanReach(gate(n, f), gate(n, f + 1), perHour, k)
  }

  ghost predicate InsertFollows(gate: Gates, n: nat, f: nat, perHour: nat, k: nat) {
    CanReach(gate(n, f + 1), gate(n + 1, f), perHour, k)
  }

  ghost predicate Checks(gate: Gates, perHour: nat, k: nat, many: nat) {
    forall n: nat, f: nat :: n < perHour && n <= many && f < k ==> CheckFollows(gate, n, f, perHour, k)
  }

  ghost predicate Inserts(gate: Gates, perHour: nat, k: nat, many: nat) {
    forall n: nat, f: nat :: n < many ==> InsertFollows(gate, n, f, perHour, k)
  }

  /** One submission after another, each inserted before the next is checked. */
  lemma {:induction false} Serially(gate: Gates, n: nat, perHour: nat, k: nat, many: nat)
    requires Checks(gate, perHour, k, many) && Inserts(gate, perHour, k, many)
    requires n <= perHour && n <= many && 1 <= k
    ensures CanReach(gate(0, 0), gate(n, 0), perHour, k)
  {
    if n == 0 {
      CanReachItself(gate(0, 0), perHour, k);
    } else {
      Serially(gate, n - 1, perHour, k, many);
      assert CheckFollows(gate, n - 1, 0, perHour, k) && InsertFollows(gate, n - 1, 0, perHour, k);
      CanReachOn(gate(n - 1, 0), gate(n - 1, 1), gate(n, 0), perHour, k);
      CanReachOn(gate(0, 0), gate(n - 1, 0), gate(n, 0), perHour, k);
    }
  }

  lemma {:induction false} AllCheck(gate: Gates, n: nat, f: nat, perHour: nat, k: nat, many: nat)
    requires Checks(gate, perHour, k, many) && n < perHour && n <= many && f <= k
    ensures CanReach(gate(n, 0), gate(n, f), perHour, k)
    decreases f
  {
    if f == 0 {
      CanReachItself(gate(n, 0), perHour, k);
    } else {
      AllCheck(gate, n, f - 1, perHour, k, many);
      assert CheckFollows(gate, n, f - 1, perHour, k);
      CanReachOn(gate(n, 0), gate(n, f - 1), gate(n, f), perHour, k);
    }
  }

  lemma {:induction false} AllInsert(gate: Gates, n: nat, f: nat, perHour: nat, k: nat, many: nat)
    requires Inserts(gate, perHour, k, many) && n + f <= many
    ensures CanReach(gate(n, f), gate(n + f, 0), perHour, k)
    decreases f
  {
    if f == 0 {
      CanReachItself(gate(n, 0), perHour, k);
    } else {
      AllInsert(gate, n + 1, f - 1, perHour, k, many);
      assert InsertFollows(gate, n, f - 1, perHour, k);
      CanReachOn(gate(n, f), gate(n + 1, f - 1), gate(n + f, 0), perHour, k);
    }
  }

  /** `n` submissions in turn, then `m` that all check before any inserts. */
  lemma TheBurst(gate: Gates, n: nat, m: nat, perHour: nat, k: nat, many: nat)
    requires Checks(gate, perHour, k, many) && Inserts(gate, perHour, k, many)
    requires n < perHour && 1 <= m <= k && n + m <= many
    ensures CanReach(gate(0, 0), gate(n + m, 0), perHour, k)
  {
    Serially(gate, n, perHour, k, many);
    AllCheck(gate, n, m, perHour, k, many);
    AllInsert(gate, n, m, perHour, k, many);
    CanReachOn(gate(0, 0), gate(n, 0), gate(n, m), perHour, k);
    CanReachOn(gate(0, 0), gate(n, m), gate(n + m, 0), perHour, k);
  }

  ghost predicate AreGates(gate: Gates) { forall n: nat, f: nat :: gate(n, f) == GateAt(n, f) }

  lemma GatesFollow(gate: Gates, perHour: nat, k: nat)
    requires AreGates(gate)
    ensures Checks(gate, perHour, k, Many()) && Inserts(gate, perHour, k, Many())
  {
    forall n: nat, f: nat | n < perHour && n <= Many() && f < k ensures CheckFollows(gate, n, f, perHour, k) {
      OneMoreCheck(n, f, perHour, k);
    }
    forall n: nat, f: nat | n < Many() ensures InsertFollows(gate, n, f, perHour, k) {
      OneMoreInsert(n, f + 1, perHour, k);
    }
  }

  lemma EmptyGate()
    ensures Initial(GateAt(0, 0).s) && GateAt(0, 0).checked == map[]
  {
    assert Window(0, 0) == {};
    assert Pending(0, 0) == map[];
  }

  /** With `m` requests between check and insert, an hour of the table can hold `perHour + m - 1` rows of one user. */
  lemma BurstFillsTheTable(perHour: nat, m: nat, k: nat) returns (g0: Gate, run: seq<GateStep>)
    requires 1 <= perHour && 1 <= m <= k && perHour + m - 1 <= Many()
    ensures Initial(g0.s) && g0.checked == map[] && Runs(g0, run, perHour, k)
    ensures |Limit.InHour(Limit.UserRows(Finally(g0, run, perHour, k).s.jobs, 0), 0)| == perHour + m - 1
  {
    var gate: Gates := (n: nat, f: nat) => GateAt(n, f);
    GatesFollow(gate, perHour, k);
    FullGate(gate(perHour - 1 + m, 0), perHour - 1 + m);
    g0, run := BurstOf(gate, perHour, m, k, Many());
    EmptyGate();
  }

  lemma BurstOf(gate: Gates, perHour: nat, m: nat, k: nat, many: nat) returns (g0: Gate, run: seq<GateStep>)
    requires Checks(gate, perHour, k, many) && Inserts(gate, perHour, k, many)
    requires 1 <= perHour && 1 <= m <= k && perHour + m - 1 <= many
    ensures g0 == gate(0, 0) && Runs(g0, run, perHour, k) && Finally(g0, run, perHour, k) == gate(perHour - 1 + m, 0)
  {
    TheBurst(gate, perHour - 1, m, perHour, k, many);
    g0 := gate(0, 0);
    run := RunTo(g0, gate(perHour - 1 + m, 0), perHour, k);
  }

  lemma RunTo(g: Gate, t: Gate, perHour: nat, k: nat) returns (run: seq<GateStep>)
    requires CanReach(g, t, perHour, k)
    ensures Runs(g, run, perHour, k) && Finally(g, run, perHour, k) == t
  {
    run :| Brings(g, run, t, perHour, k);
  }

  lemma FullGate(g: Gate, n: nat)
    requires n <= Many() && g == GateAt(n, 0)
    ensures |Limit.InHour(Limit.UserRows(g.s.jobs, 0), 0)| == n
  {
    BurstIsCounted(n);
  }

  /** The configured limit is a 32-bit number. */
  const MAX_U32 := 0xFFFF_FFFF

  /** No hour of the table ever holds more rows of a user than the configured limit. */
  ghost predicate LimitHolds(perHour: nat, k: nat) {
    forall g0: Gate, run: seq<GateStep>, user: nat, end: int ::
      Initial(g0.s) && g0.checked == map[] && Runs(g0, run, perHour, k) ==>
        |Limit.InHour(Limit.UserRows(Finally(g0, run, perHour, k).s.jobs, user), end)| <= perHour
  }

  /**
   * The configured limit holds of the table, over every run of the guarded service, if and only if no two requests of a
   * user are ever between check and insert at once.
   */
  lemma TableLimitHoldsExactlyWhenSerial(perHour: nat, k: nat)
    requires 1 <= perHour <= MAX_U32 && 1 <= k
    ensures LimitHolds(perHour, k) <==> k == 1
  {
    if k == 1 {
      forall g0: Gate, run: seq<GateStep>, user: nat, end: int |
        Initial(g0.s) && g0.checked == map[] && Runs(g0, run, perHour, k)
        ensures |Limit.InHour(Limit.UserRows(Finally(g0, run, perHour, k).s.jobs, user), end)| <= perHour
      {
        TableKeepsTheLimit(g0, run, user, perHour, k, end);
      }
    } else {
      Pow10Grows(36);
      var g0, run := BurstFillsTheTable(perHour, 2, k);
      assert |Limit.InHour(Limit.UserRows(Finally(g0, run, perHour, k).s.jobs, 0), 0)| > perHour;
    }
  }
}
