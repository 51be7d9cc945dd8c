/** The path a visitor was heading for, carried through the sign-in redirect and checked twice. */
module ReturnPaths {
  import opened Basics
  import opened Percent
  import opened Texts
  import opened Splitting
  import opened QueryStrings

  const SLASH: Scalar := 0x2F
  const BACKSLASH: Scalar := 0x5C

  /** The front page. */
  const DEFAULT_RETURN_TO: Text := [SLASH]

  /** A plain absolute path on this host. */
  predicate IsLocalPath(t: Text) {
    && t != [] && t[0] == SLASH
    && !(|t| >= 2 && (t[1] == SLASH || t[1] == BACKSLASH))
    && forall i :: 0 <= i < |t| ==> !IsControl(t[i])
  }

  function SanitiseReturnTo(candidate: Option<Text>): Text {
    if candidate.None? then DEFAULT_RETURN_TO
    else
      var value := candidate.value;
      var startsWell := |value| >= 1 && value[0] == SLASH
        && !(|value| >= 2 && value[0] == SLASH && value[1] == SLASH)
        && !(|value| >= 2 && value[0] == SLASH && value[1] == BACKSLASH);
      var hasLineBreak := exists i :: 0 <= i < |value| && (value[i] == 10 || value[i] == 13);
      var hasControl := exists i :: 0 <= i < |value| && IsControl(value[i]);
      if startsWell && !hasLineBreak && !hasControl then value else DEFAULT_RETURN_TO
  }

  /** The result is always local, and exactly the local paths are left alone. */
  lemma SanitisedIsLocal(t: Text)
    ensures IsLocalPath(SanitiseReturnTo(Some(t)))
    ensures SanitiseReturnTo(Some(t)) == t <==> IsLocalPath(t)
    ensures !IsLocalPath(t) ==> SanitiseReturnTo(Some(t)) == DEFAULT_RETURN_TO
  {
  }

  const LOGIN_PATH := "/auth/login"

  const RETURN_TO_PARAM := "return_to"

  /** Where an unauthenticated request for `target` is redirected to. */
  function LoginUrl(target: Text): string {
    if target == DEFAULT_RETURN_TO then LOGIN_PATH
    else LOGIN_PATH + "?" + RETURN_TO_PARAM + "=" + Encode(Bytes(target))
  }

  /** What `GET /auth/login` reads from its URL. */
  function ReadReturnTo(url: string): Option<Text> {
    var mark := Find(url, '?');
    var pairs := ParsePairs(After(url, mark), true);
    FirstNamed(pairs, RETURN_TO_PARAM)
  }

  function FirstNamed(pairs: seq<Pair>, name: string): Option<Text> {
    if pairs == [] then None
    else if pairs[0].0 == name then Some(TextOf(pairs[0].1))
    else FirstNamed(pairs[1..], name)
  }

  /** Where the visitor lands: the candidate is checked at login, kept in the flow, and checked again at the callback. */
  function Destination(url: string): Text {
    SanitiseReturnTo(Some(SanitiseReturnTo(ReadReturnTo(url))))
  }

  lemma ReturnToIsPlain()
    ensures Plain(RETURN_TO_PARAM) && RETURN_TO_PARAM != "" && '?' !in LOGIN_PATH
  {
  }

  lemma LoginUrlReadsBack(target: Text)
    ensures ReadReturnTo(LoginUrl(target)) == if target == DEFAULT_RETURN_TO then None else Some(target)
  {
    ReturnToIsPlain();
    if target == DEFAULT_RETURN_TO {
      FindNone(LOGIN_PATH, '?');
    } else {
      var pairs: seq<Pair> := [(RETURN_TO_PARAM, Bytes(target))];
      var query := JoinPairs(pairs);
      assert query == RETURN_TO_PARAM + "=" + Encode(Bytes(target));
      FindAt(LOGIN_PATH, '?', query);
      assert LoginUrl(target) == LOGIN_PATH + ['?'] + query;
      PairsReadBack(pairs, true);
      TextReadsBack(target);
    }
  }

  /** A visitor who is sent to sign in comes back to the requested target exactly when that is a local path. */
  lemma ReturnPathSurvivesExactly(target: Text)
    ensures Destination(LoginUrl(target)) == (if IsLocalPath(target) then target else DEFAULT_RETURN_TO)
  {
    LoginUrlReadsBack(target);
    SanitisedIsLocal(target);
    SanitisedIsLocal(SanitiseReturnTo(Some(target)));
    SanitisedIsLocal(DEFAULT_RETURN_TO);
  }

  /** Whatever the login URL says, the destination is one slash, not two, and no control character. */
  lemma DestinationIsAlwaysLocal(url: string)
    ensures IsLocalPath(Destination(url))
  {
    SanitisedIsLocal(SanitiseReturnTo(ReadReturnTo(url)));
  }
}
