/**
 * Sign-in and sign-out as steps on one session: a login stores a flow, a callback
 * takes it, and only a matching, timely, verified and permitted callback signs in.
 */
module SignIn {
  import opened Basics
  import opened Texts
  import opened ReturnPaths

  // ---------------------------------------------------------------- comparing the state parameter

  /** `fold(0_u8, |acc, (a, b)| acc | (a ^ b))`. */
  function FoldDifferences(left: seq<bv8>, right: seq<bv8>, acc: bv8): bv8
    requires |left| == |right|
  {
    if left == [] then acc else FoldDifferences(left[1..], right[1..], acc | (left[0] ^ right[0]))
  }

  predicate ConstantTimeEq(left: seq<bv8>, right: seq<bv8>) {
    |left| == |right| && FoldDifferences(left, right, 0) == 0
  }

  lemma NoDifference(acc: bv8, a: bv8, b: bv8)
    ensures acc | (a ^ b) == 0 <==> acc == 0 && a == b
  {
  }

  lemma {:induction false} FoldIsZeroExactly(left: seq<bv8>, right: seq<bv8>, acc: bv8)
    requires |left| == |right|
    ensures FoldDifferences(left, right, acc) == 0 <==> acc == 0 && left == right
    decreases |left|
  {
    if left != [] {
      NoDifference(acc, left[0], right[0]);
      FoldIsZeroExactly(left[1..], right[1..], acc | (left[0] ^ right[0]));
      assert left == [left[0]] + left[1..] && right == [right[0]] + right[1..];
    }
  }

  /** The comparison that does not stop early is equality. */
  lemma ConstantTimeEqIsEquality(left: seq<bv8>, right: seq<bv8>)
    ensures ConstantTimeEq(left, right) <==> left == right
  {
    if |left| == |right| {
      FoldIsZeroExactly(left, right, 0);
    }
  }

  // ---------------------------------------------------------------- the session

  /** Milliseconds; the age check works in whole seconds, truncated. */
  const LOGIN_FLOW_TTL_SECONDS := 900

  function WholeSeconds(ms: int): int { if ms >= 0 then ms / 1000 else -(-ms / 1000) }

  /** The check in whole seconds lets a flow live until just before its 901st second. */
  lemma TtlInMilliseconds(age: int)
    ensures WholeSeconds(age) <= LOGIN_FLOW_TTL_SECONDS <==> age < 901_000
  {
  }

  /** `serial` tells stored flows apart; the program has no such number. */
  datatype Flow = Flow(serial: nat, state: seq<bv8>, returnTo: Text)

  datatype Stamped = Stamped(flow: Flow, createdAt: int)

  datatype User = User(oid: string, permitted: bool)

  datatype SessionValue = SessionValue(id: nat, flow: Option<Stamped>, user: Option<User>, idToken: Option<User>)

  datatype Refusal = NoFlowInProgress | FlowExpired | ProviderRefused | StateMismatch | NotVerified | Forbidden

  datatype Outcome = SignedIn(destination: Text) | Refused(reason: Refusal)

  /** The query of the redirect back, and what the code exchange makes of it. */
  datatype CallbackQuery = CallbackQuery(hasError: bool, hasCode: bool, state: Option<seq<bv8>>, verified: Option<User>)

  /** Why a callback is refused once its flow has been taken; `None` lets it through. */
  function Objection(flow: Flow, q: CallbackQuery): Option<Refusal> {
    if q.hasError then Some(ProviderRefused)
    else if !q.hasCode || q.state.None? then Some(StateMismatch)
    else if q.state.value != flow.state then Some(StateMismatch)
    else if q.verified.None? then Some(NotVerified)
    else if !q.verified.value.permitted then Some(Forbidden)
    else None
  }

  predicate Timely(s: Stamped, now: int) { now - s.createdAt < 1000 * (LOGIN_FLOW_TTL_SECONDS + 1) }

  function CallbackOutcome(s: SessionValue, q: CallbackQuery, now: int): Outcome {
    if s.flow.None? then Refused(NoFlowInProgress)
    else if !Timely(s.flow.value, now) then Refused(FlowExpired)
    else
      var objection := Objection(s.flow.value.flow, q);
      if objection.Some? then Refused(objection.value)
      else SignedIn(SanitiseReturnTo(Some(s.flow.value.flow.returnTo)))
  }

  /** What lets a callback through, said of the session and the query alone. */
  predicate Acceptable(s: SessionValue, q: CallbackQuery, now: int) {
    && s.flow.Some? && now - s.flow.value.createdAt < 901_000
    && !q.hasError && q.hasCode && q.state == Some(s.flow.value.flow.state)
    && q.verified.Some? && q.verified.value.permitted
  }

  /** Each reason to refuse, with what it says of the callback; earlier checks come first. */
  predicate ReasonFits(s: SessionValue, q: CallbackQuery, now: int, reason: Refusal) {
    && (reason.NoFlowInProgress? <==> s.flow.None?)
    && (s.flow.Some? ==>
          var inTime := now - s.flow.value.createdAt < 901_000;
          var answers := inTime && !q.hasError;
          var matches := answers && q.hasCode && q.state == Some(s.flow.value.flow.state);
          && (reason.FlowExpired? <==> !inTime)
          && (reason.ProviderRefused? <==> inTime && q.hasError)
          && (reason.StateMismatch? <==> answers && !matches)
          && (reason.NotVerified? <==> matches && q.verified.None?)
          && (reason.Forbidden? <==> matches && q.verified.Some? && !q.verified.value.permitted))
  }

  /** Every callback uses the flow up; only an accepted one changes who is signed in, under a new session id. */
  function AfterCallback(s: SessionValue, q: CallbackQuery, now: int, newId: nat): SessionValue {
    if CallbackOutcome(s, q, now).SignedIn? && q.verified.Some? then SessionValue(newId, None, q.verified, q.verified)
    else s.(flow := None)
  }

  function AfterLogin(s: SessionValue, flow: Flow, now: int): SessionValue {
    if s.user.Some? then s else s.(flow := Some(Stamped(flow, now)))
  }

  function AfterLogout(newId: nat): SessionValue { SessionValue(newId, None, None, None) }

  class Session {
    var id: nat
    var flow: Option<Stamped>
    var user: Option<User>
    var idToken: Option<User>

    function Value(): SessionValue
      reads this
    {
      SessionValue(id, flow, user, idToken)
    }

    constructor (id: nat)
      ensures Value() == SessionValue(id, None, None, None)
    {
      this.id, flow, user, idToken := id, None, None, None;
    }

    method PutLoginFlow(newFlow: Flow, now: int)
      modifies this`flow
      ensures flow == Some(Stamped(newFlow, now))
    {
      flow := Some(Stamped(newFlow, now));
    }

    /** The flow is removed before anything about it is checked. */
    method TakeLoginFlow(now: int) returns (r: Result<Flow, Refusal>)
      modifies this`flow
      ensures flow.None?
      ensures r.Ok? <==> old(flow).Some? && now - old(flow).value.createdAt < 901_000
      ensures r.Ok? ==> r.value == old(flow).value.flow
      ensures r.Err? ==> r.error == if old(flow).None? then NoFlowInProgress else FlowExpired
    {
      var stamped := flow;
      flow := None;
      if stamped.None? {
        return Err(NoFlowInProgress);
      }
      var age := now - stamped.value.createdAt;
      TtlInMilliseconds(age);
      if WholeSeconds(age) > LOGIN_FLOW_TTL_SECONDS {
        return Err(FlowExpired);
      }
      r := Ok(stamped.value.flow);
    }

    method PutUser(newUser: User, token: User)
      modifies this`user, this`idToken
      ensures user == Some(newUser) && idToken == Some(token)
    {
      user, idToken := Some(newUser), Some(token);
    }

    method CycleId(newId: nat)
      modifies this`id
      ensures id == newId
    {
      id := newId;
    }

    method Flush(newId: nat)
      modifies this
      ensures Value() == AfterLogout(newId)
    {
      id, flow, user, idToken := newId, None, None, None;
    }

    /** Someone already signed in is sent straight on; otherwise a flow is stored, when the provider's metadata could be had. */
    method Login(candidate: Option<Text>, secret: seq<bv8>, serial: nat, metadataAvailable: bool, now: int)
      returns (redirect: Option<Text>)
      modifies this`flow
      ensures redirect == if user.Some? then Some(SanitiseReturnTo(candidate)) else None
      ensures flow == if user.None? && metadataAvailable then Some(Stamped(Flow(serial, secret, SanitiseReturnTo(candidate)), now))
                      else old(flow)
      ensures Value() == if metadataAvailable
        then AfterLogin(old(Value()), Flow(serial, secret, SanitiseReturnTo(candidate)), now) else old(Value())
    {
      var returnTo := SanitiseReturnTo(candidate);
      if user.Some? {
        return Some(returnTo);
      }
      redirect := None;
      if metadataAvailable {
        PutLoginFlow(Flow(serial, secret, returnTo), now);
      }
    }

    method Callback(q: CallbackQuery, now: int, newId: nat) returns (outcome: Outcome)
      modifies this
      ensures outcome.SignedIn? <==> Acceptable(old(Value()), q, now)
      ensures outcome.SignedIn? ==>
        && outcome.destination == SanitiseReturnTo(Some(old(flow).value.flow.returnTo))
        && Value() == SessionValue(newId, None, q.verified, q.verified)
      ensures outcome.Refused? ==> Value() == old(Value()).(flow := None)
      ensures outcome.Refused? ==> ReasonFits(old(Value()), q, now, outcome.reason)
      ensures outcome == CallbackOutcome(old(Value()), q, now)
      ensures Value() == AfterCallback(old(Value()), q, now, newId)
    {
      var taken := TakeLoginFlow(now);
      if taken.Err? {
        return Refused(taken.error);
      }
      if q.hasError {
        return Refused(ProviderRefused);
      }
      if !q.hasCode || q.state.None? {
        return Refused(StateMismatch);
      }
      ConstantTimeEqIsEquality(taken.value.state, q.state.value);
      if !ConstantTimeEq(taken.value.state, q.state.value) {
        return Refused(StateMismatch);
      }
      if q.verified.None? {
        return Refused(NotVerified);
      }
      if !q.verified.value.permitted {
        return Refused(Forbidden);
      }
      CycleId(newId);
      PutUser(q.verified.value, q.verified.value);
      outcome := SignedIn(SanitiseReturnTo(Some(taken.value.returnTo)));
    }

    method Logout(newId: nat) returns (hint: Option<User>)
      modifies this
      ensures hint == old(idToken) && Value() == AfterLogout(newId)
    {
      hint := idToken;
      Flush(newId);
    }
  }

  // ---------------------------------------------------------------- whole runs

  /** A callback that was let through: which flow it used up, when, with what query, and for whom. */
  datatype Acceptance = Acceptance(serial: nat, at: int, query: CallbackQuery, user: User, sessionId: nat)

  /** A flow as it was stored. */
  datatype Storing = Storing(flow: Flow, at: int)

  /** The session with the record of what happened to it; flows are numbered and session ids issued in order. */
  datatype Run = Run(session: SessionValue, now: int, stored: seq<Storing>, accepted: seq<Acceptance>, nextId: nat)

  datatype Step =
    | Tick(elapsed: nat)
    | LoginStep(candidate: Option<Text>, secret: seq<bv8>)
    | CallbackStep(query: CallbackQuery)
    | LogoutStep

  function Next(r: Run, e: Step): Run {
    match e
    case Tick(elapsed) => r.(now := r.now + elapsed)
    case LoginStep(candidate, secret) =>
      var flow := Flow(|r.stored|, secret, SanitiseReturnTo(candidate));
      if r.session.user.Some? then r
      else r.(session := AfterLogin(r.session, flow, r.now), stored := r.stored + [Storing(flow, r.now)])
    case CallbackStep(q) =>
      var s := AfterCallback(r.session, q, r.now, r.nextId);
      if CallbackOutcome(r.session, q, r.now).SignedIn? && r.session.flow.Some? && q.verified.Some? then
        r.(session := s, nextId := r.nextId + 1,
           accepted := r.accepted
             + [Acceptance(r.session.flow.value.flow.serial, r.now, q, q.verified.value, s.id)])
      else r.(session := s)
    case LogoutStep => r.(session := AfterLogout(r.nextId), nextId := r.nextId + 1)
  }

  function After(r: Run, steps: seq<Step>): Run
    decreases steps
  {
    if steps == [] then r else After(Next(r, steps[0]), steps[1..])
  }

  predicate Initial(r: Run) {
    r.session == SessionValue(0, None, None, None) && r.stored == [] && r.accepted == [] && r.nextId == 1
  }

  ghost predicate StoredOk(r: Run) {
    && (forall i :: 0 <= i < |r.stored| ==> r.stored[i].flow.serial == i && r.stored[i].at <= r.now
                                            && IsLocalPath(r.stored[i].flow.returnTo))
    && (r.session.flow.Some? ==>
          var f := r.session.flow.value;
          && f.flow.serial < |r.stored| && r.stored[f.flow.serial] == Storing(f.flow, f.createdAt)
          && (forall i :: 0 <= i < |r.accepted| ==> r.accepted[i].serial < f.flow.serial))
  }

  ghost predicate AcceptanceOk(a: Acceptance, stored: seq<Storing>) {
    && a.serial < |stored|
    && stored[a.serial].at <= a.at < stored[a.serial].at + 901_000
    && !a.query.hasError && a.query.hasCode && a.query.state == Some(stored[a.serial].flow.state)
    && a.query.verified == Some(a.user) && a.user.permitted
  }

  ghost predicate AcceptedOk(r: Run) {
    && (forall i :: 0 <= i < |r.accepted| ==> AcceptanceOk(r.accepted[i], r.stored))
    && (forall i, j :: 0 <= i < j < |r.accepted| ==> r.accepted[i].serial < r.accepted[j].serial)
  }

  ghost predicate WhoOk(r: Run) {
    && r.session.id < r.nextId
    && (r.session.user.Some? <==> r.session.idToken.Some?)
    && (r.session.user.Some? ==>
          r.accepted != [] && r.accepted[|r.accepted| - 1].user == r.session.user.value
          && r.accepted[|r.accepted| - 1].sessionId == r.session.id)
  }

  ghost predicate RunOk(r: Run) { StoredOk(r) && AcceptedOk(r) && WhoOk(r) }

  lemma LoginKeepsRun(r: Run, candidate: Option<Text>, secret: seq<bv8>)
    requires RunOk(r)
    ensures RunOk(Next(r, LoginStep(candidate, secret)))
  {
    SanitisedIsLocal(if candidate.Some? then candidate.value else []);
    var t := Next(r, LoginStep(candidate, secret));
    forall i | 0 <= i < |t.accepted| ensures AcceptanceOk(t.accepted[i], t.stored) {
      assert AcceptanceOk(r.accepted[i], r.stored);
    }
  }

  lemma CallbackKeepsRun(r: Run, q: CallbackQuery)
    requires RunOk(r)
    ensures RunOk(Next(r, CallbackStep(q)))
  {
  }

  lemma StepKeepsRun(r: Run, e: Step)
    requires RunOk(r)
    ensures RunOk(Next(r, e))
  {
    match e
    case Tick(_) =>
    case LoginStep(candidate, secret) => LoginKeepsRun(r, candidate, secret);
    case CallbackStep(query) => CallbackKeepsRun(r, query);
    case LogoutStep =>
  }

  lemma {:induction false} RunKeeps(r: Run, steps: seq<Step>)
    requires RunOk(r)
    ensures RunOk(After(r, steps))
    decreases steps
  {
    if steps != [] {
      StepKeepsRun(r, steps[0]);
      RunKeeps(Next(r, steps[0]), steps[1..]);
    }
  }

  /**
   * Over any sequence of logins, callbacks and logouts, a stored flow is redeemed at most once, less than 901
   * seconds after it was stored, by a callback that carried exactly its state, for a permitted user.
   */
  lemma FlowsAreRedeemedOnce(r0: Run, steps: seq<Step>, i: nat, j: nat)
    requires Initial(r0)
    requires i < |After(r0, steps).accepted| && j < |After(r0, steps).accepted|
    ensures var r := After(r0, steps);
      && (r.accepted[i].serial == r.accepted[j].serial ==> i == j)
      && AcceptanceOk(r.accepted[i], r.stored)
  {
    RunKeeps(r0, steps);
    var r := After(r0, steps);
    assert AcceptanceOk(r.accepted[i], r.stored);
  }

  /**
   * Whoever a session says is signed in got there by an accepted callback and was permitted then; the session has
   * the id that callback gave it.
   */
  lemma OnlyAcceptedUsersAreSignedIn(r0: Run, steps: seq<Step>)
    requires Initial(r0)
    ensures var r := After(r0, steps);
      r.session.user.Some? ==>
        && r.session.user.value.permitted
        && |r.accepted| > 0 && r.accepted[|r.accepted| - 1].user == r.session.user.value
        && r.accepted[|r.accepted| - 1].sessionId == r.session.id
  {
    RunKeeps(r0, steps);
    var r := After(r0, steps);
    if r.session.user.Some? {
      assert AcceptanceOk(r.accepted[|r.accepted| - 1], r.stored);
    }
  }

  /**
   * A visitor sent to sign in from `target` and let through lands on `target` when that is a local path, and on
   * the front page otherwise.
   */
  lemma SignInReturnsToTarget(s: SessionValue, target: Text, secret: seq<bv8>, serial: nat, stored: int, q: CallbackQuery, now: int)
    requires s.user.None?
    ensures var asked := SanitiseReturnTo(ReadReturnTo(LoginUrl(target)));
      var outcome := CallbackOutcome(AfterLogin(s, Flow(serial, secret, asked), stored), q, now);
      outcome.SignedIn? ==> outcome.destination == if IsLocalPath(target) then target else DEFAULT_RETURN_TO
  {
    ReturnPathSurvivesExactly(target);
  }

  /**
   * A callback is let through if and only if a flow less than 901 seconds old is stored, its own state is that flow's,
   * the provider reported no error and gave a code, and the user it proves is permitted; the flow is gone either way.
   */
  lemma AcceptedExactly(r: Run, q: CallbackQuery)
    ensures var t := Next(r, CallbackStep(q));
      && t.session.flow.None? && t.stored == r.stored
      && (if Acceptable(r.session, q, r.now) then
            && |t.accepted| == |r.accepted| + 1 && t.accepted[..|r.accepted|] == r.accepted
            && t.session.user == q.verified && t.session.id == r.nextId
          else
            t.accepted == r.accepted && t.session == r.session.(flow := None))
  {
  }

  /** Where the callback sends a visitor who began with a login for `candidate`, and who is signed in after it. */
  lemma SignInSucceeds(r: Run, candidate: Option<Text>, secret: seq<bv8>, elapsed: nat, q: CallbackQuery)
    requires r.session.user.None? && elapsed < 901_000
    requires !q.hasError && q.hasCode && q.state == Some(secret) && q.verified.Some? && q.verified.value.permitted
    ensures var begun := After(r, [LoginStep(candidate, secret), Tick(elapsed)]);
      var t := Next(begun, CallbackStep(q));
      && CallbackOutcome(begun.session, q, begun.now) == SignedIn(SanitiseReturnTo(candidate))
      && t.session == SessionValue(r.nextId, None, q.verified, q.verified)
      && t.stored == r.stored + [Storing(Flow(|r.stored|, secret, SanitiseReturnTo(candidate)), r.now)]
      && Next(t, LoginStep(candidate, secret)) == t
      && Next(t, LogoutStep).session == SessionValue(r.nextId + 1, None, None, None)
  {
    SanitisedIsLocal(if candidate.Some? then candidate.value else []);
    SanitisedIsLocal(DEFAULT_RETURN_TO);
    SanitisedIsLocal(SanitiseReturnTo(candidate));
    var login, tick := LoginStep(candidate, secret), Tick(elapsed);
    assert [login, tick][0] == login && [login, tick][1..] == [tick] && [tick][0] == tick && [tick][1..] == [];
    assert After(Next(Next(r, login), tick), []) == Next(Next(r, login), tick);
    assert After(Next(r, login), [tick]) == After(Next(Next(r, login), tick), [tick][1..]);
    assert After(r, [login, tick]) == After(Next(r, login), [login, tick][1..]);
  }

  /** A used or replaced flow is gone: the same callback again finds nothing. */
  lemma ReplayIsRefused(s: SessionValue, q: CallbackQuery, now: int, newId: nat, again: CallbackQuery, later: int)
    ensures CallbackOutcome(AfterCallback(s, q, now, newId), again, later) == Refused(NoFlowInProgress)
  {
  }
}
