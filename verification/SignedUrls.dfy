/**
 * The read-only signed URL: the string that is signed, the query that carries
 * its fields, and what a verifier rebuilds from the URL alone.
 */
module SignedUrls {
  import opened Basics
  import opened JobStatuses
  import opened BlobPaths
  import opened Percent
  import opened Texts
  import opened Splitting
  import opened QueryStrings
  import opened DownloadNames

  const API_VERSION := "2025-05-05"

  datatype DelegationKey = DelegationKey(
    signedOid: string,
    signedTid: string,
    signedStart: string,
    signedExpiry: string,
    signedService: string,
    signedVersion: string,
    value: string)

  datatype Instant = Instant(year: nat, month: nat, day: nat, hour: nat, minute: nat, second: nat)

  predicate IsInstant(t: Instant) {
    t.year < 10000 && t.month < 100 && t.day < 100 && t.hour < 100 && t.minute < 100 && t.second < 100
  }

  /** `YYYY-MM-DDThh:mm:ssZ`. */
  function Iso8601(t: Instant): (s: string)
    requires IsInstant(t)
    ensures |s| == 20 && IsBytes(s) && '\n' !in s
  {
    TwoDigits(t.year / 100) + TwoDigits(t.year % 100) + "-" + TwoDigits(t.month) + "-" + TwoDigits(t.day)
    + "T" + TwoDigits(t.hour) + ":" + TwoDigits(t.minute) + ":" + TwoDigits(t.second) + "Z"
  }

  function TwoDigitsAt(s: string, i: nat): nat
    requires i + 2 <= |s| && IsDigit(s[i]) && IsDigit(s[i + 1])
  {
    10 * (s[i] as int - '0' as int) + (s[i + 1] as int - '0' as int)
  }

  predicate LooksLikeIso(s: string) {
    && |s| == 20 && s[4] == '-' && s[7] == '-' && s[10] == 'T' && s[13] == ':' && s[16] == ':' && s[19] == 'Z'
    && forall i :: 0 <= i < 20 && i !in {4, 7, 10, 13, 16, 19} ==> IsDigit(s[i])
  }

  /** The instant a timestamp spells, every field read from its own position. */
  function InstantAt(s: string): Option<Instant> {
    if LooksLikeIso(s) then
      Some(Instant(100 * TwoDigitsAt(s, 0) + TwoDigitsAt(s, 2), TwoDigitsAt(s, 5), TwoDigitsAt(s, 8),
                   TwoDigitsAt(s, 11), TwoDigitsAt(s, 14), TwoDigitsAt(s, 17)))
    else None
  }

  /** The instant is read back by position, so no two fields can trade places. */
  lemma IsoReadsBack(t: Instant)
    requires IsInstant(t)
    ensures LooksLikeIso(Iso8601(t)) && InstantAt(Iso8601(t)) == Some(t)
  {
  }

  // ---------------------------------------------------------------- signing

  /** The keyed digest, already in Base64: any function whose results are bytes. */
  type Signer = (string, string) -> string

  ghost predicate GivesBytes(sign: Signer) { forall key, text :: IsBytes(sign(key, text)) }

  /** What the caller asks for; an empty `disposition` means no download name. */
  datatype Grant = Grant(start: string, expiry: string, disposition: string)

  /** The 24 fields of a user delegation signature, in their fixed order. */
  function Fields(key: DelegationKey, canonical: string, grant: Grant): seq<string> {
    ["r", grant.start, grant.expiry, canonical,
     key.signedOid, key.signedTid, key.signedStart, key.signedExpiry, key.signedService, key.signedVersion,
     "", "", "", "", "", API_VERSION, "b", "", "", "", grant.disposition, "", "", ""]
  }

  function Canonical(account: string, resource: string): string { "/blob/" + account + "/" + resource }

  predicate KeyIsBytes(key: DelegationKey) {
    && IsBytes(key.signedOid) && IsBytes(key.signedTid) && IsBytes(key.signedStart)
    && IsBytes(key.signedExpiry) && IsBytes(key.signedService) && IsBytes(key.signedVersion)
  }

  predicate GrantIsBytes(grant: Grant) {
    IsBytes(grant.start) && IsBytes(grant.expiry) && IsBytes(grant.disposition)
  }

  function BasePairs(key: DelegationKey, grant: Grant, signature: string): seq<Pair> {
    [("sv", API_VERSION), ("sr", "b"), ("st", grant.start), ("se", grant.expiry), ("sp", "r"),
     ("skoid", key.signedOid), ("sktid", key.signedTid), ("skt", key.signedStart), ("ske", key.signedExpiry),
     ("sks", key.signedService), ("skv", key.signedVersion), ("sig", signature)]
  }

  /** The download name is signed too, and added only when there is one. */
  function QueryPairs(key: DelegationKey, grant: Grant, signature: string): seq<Pair> {
    BasePairs(key, grant, signature) + (if grant.disposition != "" then [("rscd", grant.disposition)] else [])
  }

  // ---------------------------------------------------------------- the verifier

  /** The value of the first parameter with this name; empty when there is none. */
  function Lookup(pairs: seq<Pair>, name: string): string {
    if pairs == [] then "" else if pairs[0].0 == name then pairs[0].1 else Lookup(pairs[1..], name)
  }

  /** What a verifier takes from a URL: account, resource path and the decoded parameters. */
  datatype Request = Request(account: string, resource: string, pairs: seq<Pair>)

  const SCHEME := "https://"

  const HOST := ".blob.core.windows.net"

  function ParseUrl(url: string): Request {
    ParseAfterScheme(if SCHEME <= url then url[|SCHEME|..] else url)
  }

  function ParseAfterScheme(rest: string): Request {
    var path := After(rest, Find(rest, '/'));
    var mark := Find(path, '?');
    Request(rest[..Find(rest, '.')], Decode(path[..mark], false), ParsePairs(After(path, mark), false))
  }

  /** The string to sign, from the request alone. */
  function Rebuild(request: Request): string {
    var p := request.pairs;
    Join(
      [Lookup(p, "sp"), Lookup(p, "st"), Lookup(p, "se"), Canonical(request.account, request.resource),
       Lookup(p, "skoid"), Lookup(p, "sktid"), Lookup(p, "skt"), Lookup(p, "ske"), Lookup(p, "sks"), Lookup(p, "skv"),
       "", "", "", "", "", Lookup(p, "sv"), Lookup(p, "sr"), "", "", "", Lookup(p, "rscd"), "", "", ""], '\n')
  }

  /** Account names are lower-case letters and digits; a container name has no slash. */
  predicate IsAccount(s: string) { forall i :: 0 <= i < |s| ==> 'a' <= s[i] <= 'z' || '0' <= s[i] <= '9' }

  /** A path that reads the same in a URL. */
  predicate UrlSafe(s: string) { forall i :: 0 <= i < |s| ==> Unreserved(s[i]) || s[i] == '/' }

  lemma {:induction false} SafePathsDecodeToThemselves(s: string)
    requires UrlSafe(s)
    ensures Decode(s, false) == s
  {
    if s != "" {
      SafePathsDecodeToThemselves(s[1..]);
    }
  }

  predicate DistinctNames(pairs: seq<Pair>) {
    forall i, j :: 0 <= i < j < |pairs| ==> pairs[i].0 != pairs[j].0
  }

  lemma {:induction false} LookupFinds(pairs: seq<Pair>, i: nat)
    requires DistinctNames(pairs) && i < |pairs|
    ensures Lookup(pairs, pairs[i].0) == pairs[i].1
  {
    if i > 0 {
      assert pairs[1..][i - 1] == pairs[i];
      LookupFinds(pairs[1..], i - 1);
    }
  }

  lemma {:induction false} LookupMisses(pairs: seq<Pair>, name: string)
    requires forall i :: 0 <= i < |pairs| ==> pairs[i].0 != name
    ensures Lookup(pairs, name) == ""
  {
    if pairs != [] {
      LookupMisses(pairs[1..], name);
    }
  }

  /** A number that tells the parameter names apart. */
  function Fingerprint(name: string): int
    requires |name| >= 2
  {
    if |name| == 2 then name[1] as int else 1000 * |name| + name[2] as int
  }

  lemma NamesAreDistinct(key: DelegationKey, grant: Grant, signature: string)
    ensures DistinctNames(QueryPairs(key, grant, signature))
  {
    var pairs := QueryPairs(key, grant, signature);
    var codes := ['v' as int, 'r' as int, 't' as int, 'e' as int, 'p' as int, 5000 + 'o' as int, 5000 + 't' as int,
                  3000 + 't' as int, 3000 + 'e' as int, 3000 + 's' as int, 3000 + 'v' as int, 3000 + 'g' as int,
                  4000 + 'c' as int];
    forall i | 0 <= i < |pairs| ensures |pairs[i].0| >= 2 && Fingerprint(pairs[i].0) == codes[i] {
    }
    assert forall i, j :: 0 <= i < j < |codes| ==> codes[i] != codes[j];
  }

  lemma NoOverrideUnlessAsked(key: DelegationKey, grant: Grant, signature: string)
    ensures Lookup(QueryPairs(key, grant, signature), "rscd") == grant.disposition
  {
    var pairs := QueryPairs(key, grant, signature);
    if grant.disposition == "" {
      NoNameNoParameter(key, grant, signature);
      LookupMisses(pairs, "rscd");
    } else {
      NamesAreDistinct(key, grant, signature);
      LookupFinds(pairs, 12);
    }
  }

  lemma ParametersAreFound(key: DelegationKey, grant: Grant, signature: string)
    ensures var p := QueryPairs(key, grant, signature);
      && Lookup(p, "sv") == API_VERSION && Lookup(p, "sr") == "b" && Lookup(p, "sp") == "r"
      && Lookup(p, "st") == grant.start && Lookup(p, "se") == grant.expiry
      && Lookup(p, "skoid") == key.signedOid && Lookup(p, "sktid") == key.signedTid
      && Lookup(p, "skt") == key.signedStart && Lookup(p, "ske") == key.signedExpiry
      && Lookup(p, "sks") == key.signedService && Lookup(p, "skv") == key.signedVersion
      && Lookup(p, "sig") == signature
  {
    var p := QueryPairs(key, grant, signature);
    NamesAreDistinct(key, grant, signature);
    forall i | 0 <= i < |p| ensures Lookup(p, p[i].0) == p[i].1 {
      LookupFinds(p, i);
    }
    assert p[0].0 == "sv" && p[1].0 == "sr" && p[2].0 == "st" && p[3].0 == "se" && p[4].0 == "sp";
    assert p[5].0 == "skoid" && p[6].0 == "sktid" && p[7].0 == "skt" && p[8].0 == "ske";
    assert p[9].0 == "sks" && p[10].0 == "skv" && p[11].0 == "sig";
  }

  /** The string a verifier rebuilds from the parameters is the one that was signed. */
  lemma RebuiltIsSigned(account: string, resource: string, key: DelegationKey, grant: Grant, signature: string)
    ensures Rebuild(Request(account, resource, QueryPairs(key, grant, signature)))
      == Join(Fields(key, Canonical(account, resource), grant), '\n')
  {
    ParametersAreFound(key, grant, signature);
    NoOverrideUnlessAsked(key, grant, signature);
  }

  lemma QueryPairsAreWellFormed(key: DelegationKey, grant: Grant, signature: string)
    requires KeyIsBytes(key) && GrantIsBytes(grant) && IsBytes(signature)
    ensures WellFormed(QueryPairs(key, grant, signature))
  {
  }

  lemma ResourceSplits(resource: string, query: string)
    requires UrlSafe(resource)
    ensures var tail := resource + ['?'] + query;
      Find(tail, '?') == |resource| && Decode(tail[..|resource|], false) == resource && After(tail, |resource|) == query
  {
    FindAt(resource, '?', query);
    assert (resource + ['?'] + query)[..|resource|] == resource;
    SafePathsDecodeToThemselves(resource);
  }

  lemma AccountSplits(account: string, host: string, tail: string)
    requires IsAccount(account) && host != "" && host[0] == '.'
    ensures var rest := account + host + tail;
      rest[..Find(rest, '.')] == account
  {
    var rest := account + host + tail;
    FindAt(account, '.', host[1..] + tail);
    assert rest == account + ['.'] + (host[1..] + tail);
    assert rest[..|account|] == account;
  }

  lemma AuthoritySplits(account: string, host: string, tail: string)
    requires IsAccount(account) && host != "" && host[0] == '.' && '/' !in host
    ensures var rest := account + host + ['/'] + tail;
      rest[..Find(rest, '.')] == account && After(rest, Find(rest, '/')) == tail
  {
    var rest := account + host + ['/'] + tail;
    assert rest == account + host + (['/'] + tail);
    AccountSplits(account, host, ['/'] + tail);
    FindAt(account + host, '/', tail);
  }

  lemma AfterSchemeReadsBack(account: string, host: string, resource: string, pairs: seq<Pair>)
    requires IsAccount(account) && host != "" && host[0] == '.' && '/' !in host
    requires UrlSafe(resource) && WellFormed(pairs)
    ensures ParseAfterScheme(account + host + ['/'] + (resource + ['?'] + JoinPairs(pairs))) == Request(account, resource, pairs)
  {
    AuthoritySplits(account, host, resource + ['?'] + JoinPairs(pairs));
    ResourceSplits(resource, JoinPairs(pairs));
    PairsReadBack(pairs, false);
  }

  function Url(account: string, resource: string, query: string): string {
    SCHEME + (account + HOST + ['/'] + (resource + ['?'] + query))
  }

  /** The URL is an HTTPS one at the account's own host. */
  predicate AtTheAccount(url: string, account: string) {
    "https://" + (account + ".blob.core.windows.net") <= url
  }

  lemma UrlIsAtTheAccount(account: string, resource: string, query: string)
    ensures AtTheAccount(Url(account, resource, query), account)
  {
    var rest := ['/'] + (resource + ['?'] + query);
    assert account + HOST + rest == (account + HOST) + rest;
    assert Url(account, resource, query) == SCHEME + (account + HOST) + rest;
  }

  lemma SchemeIsDropped(rest: string)
    ensures ParseUrl(SCHEME + rest) == ParseAfterScheme(rest)
  {
    assert (SCHEME + rest)[|SCHEME|..] == rest;
  }

  lemma HostHasNoSlash()
    ensures HOST != "" && HOST[0] == '.' && '/' !in HOST
  {
  }

  lemma UrlReadsBack(account: string, resource: string, pairs: seq<Pair>)
    requires IsAccount(account) && UrlSafe(resource) && WellFormed(pairs)
    ensures ParseUrl(Url(account, resource, JoinPairs(pairs))) == Request(account, resource, pairs)
  {
    HostHasNoSlash();
    AfterSchemeReadsBack(account, HOST, resource, pairs);
    SchemeIsDropped(account + HOST + ['/'] + (resource + ['?'] + JoinPairs(pairs)));
  }

  /** A container's client, as far as signing needs it. */
  datatype Container = Container(account: string, name: string)

  predicate IsContainer(c: Container) {
    IsAccount(c.account) && forall i :: 0 <= i < |c.name| ==> Unreserved(c.name[i])
  }

  /** A URL with these parameters leads a verifier to the string that was signed, and to its signature. */
  lemma VerifierAgrees(c: Container, path: string, key: DelegationKey, grant: Grant, signature: string)
    requires IsContainer(c) && KeyIsBytes(key) && UrlSafe(path) && GrantIsBytes(grant) && IsBytes(signature)
    requires WellFormed(QueryPairs(key, grant, signature))
    ensures var resource := c.name + "/" + path;
      var request := ParseUrl(Url(c.account, resource, JoinPairs(QueryPairs(key, grant, signature))));
      && request.account == c.account && request.resource == resource
      && request.pairs == QueryPairs(key, grant, signature)
      && Rebuild(request) == Join(Fields(key, Canonical(c.account, resource), grant), '\n')
      && Lookup(request.pairs, "sig") == signature
  {
    var resource := c.name + "/" + path;
    assert UrlSafe(resource);
    UrlReadsBack(c.account, resource, QueryPairs(key, grant, signature));
    RebuiltIsSigned(c.account, resource, key, grant, signature);
    ParametersAreFound(key, grant, signature);
  }

  function GrantFor(start: Instant, expiry: Instant, downloadAs: Option<Text>, alnum: Alphanumeric): (grant: Grant)
    requires IsInstant(start) && IsInstant(expiry)
    ensures GrantIsBytes(grant)
  {
    Grant(Iso8601(start), Iso8601(expiry),
          if downloadAs.Some? then Disposition(Sanitise(downloadAs.value, alnum)) else "")
  }

  /** What the parameters say of the key: each of its fields under its own name. */
  predicate NamesTheKey(pairs: seq<Pair>, key: DelegationKey) {
    && Lookup(pairs, "skoid") == key.signedOid && Lookup(pairs, "sktid") == key.signedTid
    && Lookup(pairs, "skt") == key.signedStart && Lookup(pairs, "ske") == key.signedExpiry
    && Lookup(pairs, "sks") == key.signedService && Lookup(pairs, "skv") == key.signedVersion
  }

  /** What they say of the access: one blob, to be read, from `start` to `expiry`. */
  predicate GrantsReading(pairs: seq<Pair>, start: Instant, expiry: Instant) {
    && Lookup(pairs, "sp") == "r" && Lookup(pairs, "sr") == "b" && Lookup(pairs, "sv") == "2025-05-05"
    && InstantAt(Lookup(pairs, "st")) == Some(start) && InstantAt(Lookup(pairs, "se")) == Some(expiry)
  }

  /** What they say of the download: a header that quotes the sanitised name, or no header at all. */
  ghost predicate CarriesTheName(pairs: seq<Pair>, downloadAs: Option<Text>, alnum: Alphanumeric) {
    if downloadAs.None? then forall i :: 0 <= i < |pairs| ==> pairs[i].0 != "rscd"
    else AgreesOnAscii(alnum) ==> QuotedPart(Lookup(pairs, "rscd")) == Bytes(Sanitise(downloadAs.value, alnum))
  }

  lemma NoNameNoParameter(key: DelegationKey, grant: Grant, signature: string)
    requires grant.disposition == ""
    ensures forall i :: 0 <= i < |QueryPairs(key, grant, signature)| ==> QueryPairs(key, grant, signature)[i].0 != "rscd"
  {
    var pairs := QueryPairs(key, grant, signature);
    forall i | 0 <= i < |pairs| ensures pairs[i].0 != "rscd" {
      assert |pairs[i].0| != 4;
    }
  }

  lemma NameIsCarried(key: DelegationKey, grant: Grant, downloadAs: Option<Text>, alnum: Alphanumeric, signature: string)
    requires grant.disposition == if downloadAs.Some? then Disposition(Sanitise(downloadAs.value, alnum)) else ""
    ensures CarriesTheName(QueryPairs(key, grant, signature), downloadAs, alnum)
  {
    NoOverrideUnlessAsked(key, grant, signature);
    if downloadAs.None? {
      NoNameNoParameter(key, grant, signature);
    } else if AgreesOnAscii(alnum) {
      HeaderCarriesTheName(downloadAs.value, alnum);
    }
  }

  lemma ParametersMeanTheGrant(key: DelegationKey, start: Instant, expiry: Instant, downloadAs: Option<Text>,
                               alnum: Alphanumeric, signature: string)
    requires IsInstant(start) && IsInstant(expiry)
    ensures var pairs := QueryPairs(key, GrantFor(start, expiry, downloadAs, alnum), signature);
      NamesTheKey(pairs, key) && GrantsReading(pairs, start, expiry) && CarriesTheName(pairs, downloadAs, alnum)
  {
    var grant := GrantFor(start, expiry, downloadAs, alnum);
    ParametersAreFound(key, grant, signature);
    IsoReadsBack(start);
    IsoReadsBack(expiry);
    NameIsCarried(key, grant, downloadAs, alnum, signature);
  }

  /**
   * Signs a read of one blob. Whatever the key, path, times and download name, the URL says what was asked for, and the
   * string a verifier rebuilds from it alone is the one that was signed, so its signature checks out.
   */
  method ReadUrl(c: Container, key: DelegationKey, path: string, start: Instant, expiry: Instant,
                 downloadAs: Option<Text>, sign: Signer, alnum: Alphanumeric)
    returns (url: string)
    requires IsContainer(c) && KeyIsBytes(key) && UrlSafe(path) && IsInstant(start) && IsInstant(expiry)
    requires GivesBytes(sign)
    ensures AtTheAccount(url, c.account)
    ensures ParseUrl(url).account == c.account && ParseUrl(url).resource == c.name + "/" + path
    ensures NamesTheKey(ParseUrl(url).pairs, key)
    ensures GrantsReading(ParseUrl(url).pairs, start, expiry)
    ensures CarriesTheName(ParseUrl(url).pairs, downloadAs, alnum)
    ensures Rebuild(ParseUrl(url))
      == Join(Fields(key, "/blob/" + c.account + "/" + (c.name + "/" + path), GrantFor(start, expiry, downloadAs, alnum)), '\n')
    ensures Lookup(ParseUrl(url).pairs, "sig") == sign(key.value, Rebuild(ParseUrl(url)))
  {
    var grant := GrantFor(start, expiry, downloadAs, alnum);
    var resource := c.name + "/" + path;
    var stringToSign := Join(Fields(key, Canonical(c.account, resource), grant), '\n');
    var signature := sign(key.value, stringToSign);

    var query := BasePairs(key, grant, signature);
    if grant.disposition != "" {
      query := query + [("rscd", grant.disposition)];
    }
    assert query == QueryPairs(key, grant, signature);
    QueryPairsAreWellFormed(key, grant, signature);
    url := Url(c.account, resource, JoinPairs(query));
    UrlIsAtTheAccount(c.account, resource, JoinPairs(query));
    VerifierAgrees(c, path, key, grant, signature);
    ParametersMeanTheGrant(key, start, expiry, downloadAs, alnum, signature);
  }

  // ---------------------------------------------------------------- the 24 fields

  /** The blobs of generated media have paths that need no escaping. */
  lemma MediaPathsAreUrlSafe(year: nat, month: nat, media: MediaType, jobId: string, extension: string)
    requires 1 <= month <= 12 && IsUuid(jobId) && Plain(extension)
    ensures UrlSafe(BlobPath(year, month, media, jobId, extension))
  {
    var y, m, t := Decimal(year), TwoDigits(month), MediaText(media);
    assert UrlSafe(y) by {
      assert forall i :: 0 <= i < |y| ==> IsDigit(y[i]);
    }
    assert UrlSafe(m) by {
      assert forall i :: 0 <= i < |m| ==> IsDigit(m[i]);
    }
    assert UrlSafe(jobId) by {
      assert forall i :: 0 <= i < |jobId| ==> jobId[i] in jobId;
    }
    assert UrlSafe(t) && UrlSafe("/") && UrlSafe(".");
  }

  predicate KeyIsOneLine(key: DelegationKey) {
    NoneHolds([key.signedOid, key.signedTid, key.signedStart, key.signedExpiry, key.signedService, key.signedVersion], '\n')
  }

  lemma FieldsAreOneLineExactly(key: DelegationKey, canonical: string, grant: Grant)
    requires '\n' !in canonical && '\n' !in grant.start && '\n' !in grant.expiry && '\n' !in grant.disposition
    ensures NoneHolds(Fields(key, canonical, grant), '\n') <==> KeyIsOneLine(key)
  {
    var six := [key.signedOid, key.signedTid, key.signedStart, key.signedExpiry, key.signedService, key.signedVersion];
    var before := ["r", grant.start, grant.expiry, canonical];
    var after := ["", "", "", "", "", API_VERSION, "b", "", "", "", grant.disposition, "", "", ""];
    assert Fields(key, canonical, grant) == before + six + after;
    assert '\n' !in API_VERSION;
    NoneHoldsInParts(before + six, after, '\n');
    NoneHoldsInParts(before, six, '\n');
  }

  lemma SafeHasNoNewline(s: string)
    requires UrlSafe(s)
    ensures '\n' !in s
  {
  }

  lemma CanonicalIsOneLine(c: Container, path: string)
    requires IsContainer(c) && UrlSafe(path)
    ensures '\n' !in Canonical(c.account, c.name + "/" + path)
  {
    SafeHasNoNewline(path);
    SafeHasNoNewline(c.name);
    SafeHasNoNewline(c.account);
  }

  /** Position by position: permission, times, resource, the key's six fields, version and kind; the rest but one empty. */
  predicate InPlace(fields: seq<string>, resource: string, key: DelegationKey, start: Instant, expiry: Instant) {
    && |fields| == 24
    && fields[0] == "r" && InstantAt(fields[1]) == Some(start) && InstantAt(fields[2]) == Some(expiry) && fields[3] == resource
    && fields[4..10] == [key.signedOid, key.signedTid, key.signedStart, key.signedExpiry, key.signedService, key.signedVersion]
    && fields[15] == "2025-05-05" && fields[16] == "b"
    && forall i :: i in {10, 11, 12, 13, 14, 17, 18, 19, 21, 22, 23} ==> fields[i] == ""
  }

  lemma FieldsAreInPlace(key: DelegationKey, resource: string, grant: Grant, start: Instant, expiry: Instant)
    requires InstantAt(grant.start) == Some(start) && InstantAt(grant.expiry) == Some(expiry)
    ensures InPlace(Fields(key, resource, grant), resource, key, start, expiry)
  {
    assert Fields(key, resource, grant)[4..10]
      == [key.signedOid, key.signedTid, key.signedStart, key.signedExpiry, key.signedService, key.signedVersion];
  }

  /**
   * The signed string stands for one list of 24 fields exactly when the key's own fields hold no newline;
   * path, times and download name never get in the way.
   */
  lemma SignedFieldsAreRecovered(c: Container, key: DelegationKey, path: string, start: Instant, expiry: Instant,
                                 downloadAs: Option<Text>, alnum: Alphanumeric)
    requires IsContainer(c) && UrlSafe(path) && IsInstant(start) && IsInstant(expiry) && AgreesOnAscii(alnum)
    ensures var fields := Fields(key, Canonical(c.account, c.name + "/" + path), GrantFor(start, expiry, downloadAs, alnum));
      && InPlace(fields, "/blob/" + c.account + "/" + (c.name + "/" + path), key, start, expiry)
      && (Split(Join(fields, '\n'), '\n') == fields <==> KeyIsOneLine(key))
  {
    var canonical := Canonical(c.account, c.name + "/" + path);
    var grant := GrantFor(start, expiry, downloadAs, alnum);
    IsoReadsBack(start);
    IsoReadsBack(expiry);
    FieldsAreInPlace(key, canonical, grant, start, expiry);
    CanonicalIsOneLine(c, path);
    if downloadAs.Some? {
      HeaderCarriesTheName(downloadAs.value, alnum);
    }
    FieldsAreOneLineExactly(key, canonical, grant);
    FieldsAreRecoveredExactly(Fields(key, canonical, grant), '\n');
  }
}
