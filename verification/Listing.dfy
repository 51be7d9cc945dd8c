/**
 * The history and archive query: a `where` clause assembled from fragments and
 * bind positions, the joins, and the count beside it.
 */
module Listing {
  import opened Basics
  import opened JobStatuses
  import opened Tables
  import opened Protocol
  import opened ProtocolMedia
  import opened JobGuarantees
  import opened Paging

  datatype ListFilter = ListFilter(
    userId: Option<nat>,
    mediaType: Option<MediaType>,
    excludeHidden: bool,
    onlySucceeded: bool,
    newestFirst: bool)

  // ---------------------------------------------------------------- the where clause

  /** The fixed fragments; a number is the `$n` placeholder it mentions. */
  datatype Fragment =
    | Everything
    | UserIs(param: nat)
    | MediaIs(param: nat)
    | NotHidden
    | SucceededWithAsset

  datatype Value = UserValue(user: nat) | TextValue(text: string)

  /** One row of `jobs j left join assets a`. */
  datatype Joined = Joined(id: string, asset: Option<nat>)

  function MediaFromText(text: string): Option<MediaType> {
    if text == "image" then Some(Image)
    else if text == "audio" then Some(Audio)
    else if text == "video" then Some(Video)
    else None
  }

  lemma MediaReadsBack(m: MediaType)
    ensures MediaFromText(MediaText(m)) == Some(m)
  {
    assert "image"[0] == 'i' && "audio"[0] == 'a' && "video"[0] == 'v';
  }

  /** Placeholders count from one and must name a bound value of the right kind. */
  predicate WellBound(f: Fragment, binds: seq<Value>) {
    match f
    case UserIs(p) => 1 <= p <= |binds| && binds[p - 1].UserValue?
    case MediaIs(p) => 1 <= p <= |binds| && binds[p - 1].TextValue? && MediaFromText(binds[p - 1].text).Some?
    case _ => true
  }

  predicate Holds(f: Fragment, binds: seq<Value>, row: Row, asset: Option<nat>)
    requires WellBound(f, binds)
  {
    match f
    case Everything => true
    case UserIs(p) => row.user == binds[p - 1].user
    case MediaIs(p) => MediaFromText(binds[p - 1].text) == Some(row.media)
    case NotHidden => !row.hidden
    case SucceededWithAsset => row.status.SucceededName? && asset.Some?
  }

  predicate AllBound(fs: seq<Fragment>, binds: seq<Value>) { forall f :: f in fs ==> WellBound(f, binds) }

  /** The fragments joined with `and`. */
  predicate AllHold(fs: seq<Fragment>, binds: seq<Value>, row: Row, asset: Option<nat>)
    requires AllBound(fs, binds)
  {
    forall f :: f in fs ==> Holds(f, binds, row, asset)
  }

  /** The values in the order `list` and `count` bind them. */
  function Binds(filter: ListFilter): seq<Value> {
    (if filter.userId.Some? then [UserValue(filter.userId.value)] else [])
    + (if filter.mediaType.Some? then [TextValue(MediaText(filter.mediaType.value))] else [])
  }

  /** What the filter describes. */
  predicate Matches(filter: ListFilter, row: Row) {
    && (filter.userId.Some? ==> row.user == filter.userId.value)
    && (filter.mediaType.Some? ==> row.media == filter.mediaType.value)
    && (filter.excludeHidden ==> !row.hidden)
    && (filter.onlySucceeded ==> row.status.SucceededName?)
  }

  /** The clause holds of exactly the joined rows the filter describes. */
  ghost predicate Describes(fs: seq<Fragment>, binds: seq<Value>, filter: ListFilter)
    requires AllBound(fs, binds)
  {
    forall row: Row, asset: Option<nat> {:trigger AllHold(fs, binds, row, asset)} ::
      (AllHold(fs, binds, row, asset) <==> Matches(filter, row) && (filter.onlySucceeded ==> asset.Some?))
  }

  predicate Mentions(f: Fragment, p: nat) {
    match f
    case UserIs(q) => p == q
    case MediaIs(q) => p == q
    case _ => false
  }

  /** Some fragment uses the `p`-th bound value. */
  ghost predicate Used(fs: seq<Fragment>, p: nat) { exists f :: f in fs && Mentions(f, p) }

  lemma AppendedHolds(fs: seq<Fragment>, f: Fragment, binds: seq<Value>)
    requires AllBound(fs, binds) && WellBound(f, binds)
    ensures AllBound(fs + [f], binds)
    ensures forall row: Row, asset: Option<nat> {:trigger AllHold(fs + [f], binds, row, asset)} ::
      (AllHold(fs + [f], binds, row, asset) <==> AllHold(fs, binds, row, asset) && Holds(f, binds, row, asset))
    ensures forall p: nat :: Used(fs + [f], p) <==> Used(fs, p) || Mentions(f, p)
  {
    assert forall g :: g in fs + [f] <==> g in fs || g == f;
  }

  /**
   * Builds the clause. Under the bound values it holds of exactly the joined rows the filter
   * describes, it uses every bound value, and the two flags say how many there are before
   * `limit` and `offset`.
   */
  method ListPredicates(filter: ListFilter) returns (clauses: seq<Fragment>, byUser: bool, byMedia: bool)
    ensures AllBound(clauses, Binds(filter)) && Describes(clauses, Binds(filter), filter)
    ensures forall p: nat :: Used(clauses, p) <==> 1 <= p <= |Binds(filter)|
    ensures byUser == filter.userId.Some? && byMedia == filter.mediaType.Some?
    ensures |Binds(filter)| == (if byUser then 1 else 0) + (if byMedia then 1 else 0)
  {
    ghost var binds := Binds(filter);
    ghost var sofar := ListFilter(None, None, false, false, filter.newestFirst);
    clauses := [Everything];
    var next := 1;

    byUser := filter.userId.Some?;
    if byUser {
      AppendedHolds(clauses, UserIs(next), binds);
      clauses := clauses + [UserIs(next)];
      next := next + 1;
    }
    sofar := sofar.(userId := filter.userId);
    assert Describes(clauses, binds, sofar);

    byMedia := filter.mediaType.Some?;
    if byMedia {
      MediaReadsBack(filter.mediaType.value);
      AppendedHolds(clauses, MediaIs(next), binds);
      clauses := clauses + [MediaIs(next)];
    }
    sofar := sofar.(mediaType := filter.mediaType);
    assert Describes(clauses, binds, sofar);

    if filter.excludeHidden {
      AppendedHolds(clauses, NotHidden, binds);
      clauses := clauses + [NotHidden];
    }
    sofar := sofar.(excludeHidden := filter.excludeHidden);
    assert Describes(clauses, binds, sofar);

    if filter.onlySucceeded {
      AppendedHolds(clauses, SucceededWithAsset, binds);
      clauses := clauses + [SucceededWithAsset];
    }
  }

  // ---------------------------------------------------------------- the join

  /** `jobs j left join assets a on a.job_id = j.id`. */
  function JoinedRows(jobs: Jobs, assets: Assets): set<Joined> {
    (set a | a in assets && assets[a].jobId in jobs :: Joined(assets[a].jobId, Some(a)))
    + (set id | id in jobs && !HasAsset(assets, id) :: Joined(id, None))
  }

  /** The rows of the join that the clause selects. */
  function Select(jobs: Jobs, assets: Assets, fs: seq<Fragment>, binds: seq<Value>): set<Joined>
    requires AllBound(fs, binds)
  {
    set j | j in JoinedRows(jobs, assets) && j.id in jobs && AllHold(fs, binds, jobs[j.id], j.asset)
  }

  /** The same rows, in the filter's own terms. */
  function ListingRows(jobs: Jobs, assets: Assets, filter: ListFilter): set<Joined> {
    set j | j in JoinedRows(jobs, assets) && j.id in jobs && Matches(filter, jobs[j.id])
            && (filter.onlySucceeded ==> j.asset.Some?)
  }

  function MatchingJobs(jobs: Jobs, filter: ListFilter): set<string> {
    set id | id in jobs && Matches(filter, jobs[id])
  }

  /** What every reachable state guarantees of the two tables, hidden rows and duplicate deliveries included. */
  ghost predicate Listable(jobs: Jobs, assets: Assets) {
    && (forall a :: a in assets ==> assets[a].jobId in jobs)
    && (forall a, b :: a in assets && b in assets && assets[a].jobId == assets[b].jobId ==> a == b)
    && SucceededOk(jobs, assets)
  }

  lemma ReachableIsListable(s0: State, steps: seq<Step>)
    requires Initial(s0) && ValidRun(s0, steps)
    ensures Listable(After(s0, steps).jobs, After(s0, steps).assets)
  {
    Reaches(s0, steps);
  }

  lemma SelectIsDescribed(jobs: Jobs, assets: Assets, fs: seq<Fragment>, filter: ListFilter)
    requires AllBound(fs, Binds(filter)) && Describes(fs, Binds(filter), filter)
    ensures Select(jobs, assets, fs, Binds(filter)) == ListingRows(jobs, assets, filter)
  {
  }

  /** The join neither repeats a job nor drops one: `a.id is not null` excludes no succeeded job. */
  lemma OneRowPerMatch(jobs: Jobs, assets: Assets, filter: ListFilter)
    requires Listable(jobs, assets)
    ensures forall j, k :: j in ListingRows(jobs, assets, filter) && k in ListingRows(jobs, assets, filter) && j.id == k.id
                           ==> j == k
    ensures (set j | j in ListingRows(jobs, assets, filter) :: j.id) == MatchingJobs(jobs, filter)
  {
    var rows := ListingRows(jobs, assets, filter);
    forall id | id in MatchingJobs(jobs, filter) ensures exists j :: j in rows && j.id == id {
      if HasAsset(assets, id) {
        var a :| a in assets && assets[a].jobId == id;
        assert Joined(id, Some(a)) in rows;
      } else {
        assert Joined(id, None) in rows;
      }
    }
  }

  lemma {:induction false} DistinctIdsCount(rows: set<Joined>)
    requires forall j, k :: j in rows && k in rows && j.id == k.id ==> j == k
    ensures |set j | j in rows :: j.id| == |rows|
    decreases rows
  {
    var ids := set j | j in rows :: j.id;
    if rows == {} {
      assert ids == {};
    } else {
      var r :| r in rows;
      var rest := rows - {r};
      DistinctIdsCount(rest);
      assert ids == (set j | j in rest :: j.id) + {r.id};
    }
  }

  lemma CountsTheMatches(jobs: Jobs, assets: Assets, filter: ListFilter)
    requires Listable(jobs, assets)
    ensures |ListingRows(jobs, assets, filter)| == |MatchingJobs(jobs, filter)|
  {
    OneRowPerMatch(jobs, assets, filter);
    DistinctIdsCount(ListingRows(jobs, assets, filter));
  }

  // ---------------------------------------------------------------- count and list

  /** `order by j.created_at` in the chosen direction, as an ascending key. */
  function SortKey(jobs: Jobs, newestFirst: bool): Joined -> int {
    (j: Joined) => if j.id !in jobs then 0 else if newestFirst then -jobs[j.id].createdAt else jobs[j.id].createdAt
  }

  /** Every row of these is a job's, and no later one of them was created on the wrong side of an earlier one. */
  predicate InTimeOrder(jobs: Jobs, rows: seq<Joined>, newestFirst: bool) {
    && (forall j :: j in rows ==> j.id in jobs)
    && (forall i, j :: 0 <= i < j < |rows| ==>
          var first, second := jobs[rows[i].id].createdAt, jobs[rows[j].id].createdAt;
          if newestFirst then first >= second else first <= second)
  }

  lemma OrderedInTime(jobs: Jobs, rows: set<Joined>, newestFirst: bool, whole: seq<Joined>)
    requires Ordering(whole, rows, SortKey(jobs, newestFirst)) && forall j :: j in rows ==> j.id in jobs
    ensures InTimeOrder(jobs, whole, newestFirst)
  {
    var key := SortKey(jobs, newestFirst);
    assert forall j :: j in whole ==> j in Elements(whole);
    forall i, j | 0 <= i < j < |whole|
      ensures var first, second := jobs[whole[i].id].createdAt, jobs[whole[j].id].createdAt;
        if newestFirst then first >= second else first <= second
    {
      assert key(whole[i]) <= key(whole[j]);
    }
  }

  lemma CutInTime(jobs: Jobs, whole: seq<Joined>, newestFirst: bool, limit: nat, offset: nat)
    requires InTimeOrder(jobs, whole, newestFirst)
    ensures InTimeOrder(jobs, Cut(whole, limit, offset), newestFirst)
  {
    CutIsWithin(whole, limit, offset);
    assert forall i :: 0 <= i < |Cut(whole, limit, offset)| ==> Cut(whole, limit, offset)[i] == whole[offset + i];
  }

  method Count(jobs: Jobs, assets: Assets, filter: ListFilter) returns (total: nat)
    requires Listable(jobs, assets)
    ensures total == |MatchingJobs(jobs, filter)|
  {
    var clauses, _, _ := ListPredicates(filter);
    SelectIsDescribed(jobs, assets, clauses, filter);
    CountsTheMatches(jobs, assets, filter);
    total := |Select(jobs, assets, clauses, Binds(filter))|;
  }

  /** `order by`: rows with equal keys come in an arbitrary order. */
  method OrderBy(rows: set<Joined>, key: Joined -> int) returns (whole: seq<Joined>)
    ensures Ordering(whole, rows, key)
  {
    whole := [];
    var rest := rows;
    while rest != {}
      invariant NoRepeats(whole) && SortedBy(whole, key)
      invariant Elements(whole) !! rest && Elements(whole) + rest == rows
      invariant forall i, j :: 0 <= i < |whole| && j in rest ==> key(whole[i]) <= key(j)
      decreases rest
    {
      LeastExists(rest, key);
      var next :| next in rest && forall j :: j in rest ==> key(next) <= key(j);
      assert forall i :: 0 <= i < |whole| ==> whole[i] in Elements(whole);
      ElementsOfConcat(whole, [next]);
      assert Elements([next]) == {next};
      whole := whole + [next];
      rest := rest - {next};
    }
  }

  lemma {:induction false} LeastExists(rows: set<Joined>, key: Joined -> int)
    requires rows != {}
    ensures exists j :: j in rows && forall k :: k in rows ==> key(j) <= key(k)
    decreases rows
  {
    var r :| r in rows;
    var rest := rows - {r};
    if rest != {} {
      LeastExists(rest, key);
      var least :| least in rest && forall k :: k in rest ==> key(least) <= key(k);
      var j := if key(r) <= key(least) then r else least;
      assert rows == rest + {r};
      assert j in rows && forall k :: k in rows ==> key(j) <= key(k);
    } else {
      assert rows == {r};
    }
  }

  /** The asset beside a job is one of its own, and there is none beside it only when it has none. */
  ghost predicate BesideItsOwn(assets: Assets, j: Joined) {
    if j.asset.Some? then j.asset.value in assets && assets[j.asset.value].jobId == j.id
    else forall a :: a in assets ==> assets[a].jobId != j.id
  }

  /** One page, cut from some order of the whole selection. */
  method List(jobs: Jobs, assets: Assets, filter: ListFilter, limit: nat, offset: nat)
    returns (page: seq<Joined>, ghost whole: seq<Joined>)
    requires Listable(jobs, assets)
    ensures Ordering(whole, ListingRows(jobs, assets, filter), SortKey(jobs, filter.newestFirst))
    ensures page == Cut(whole, limit, offset)
    ensures InTimeOrder(jobs, whole, filter.newestFirst) && InTimeOrder(jobs, page, filter.newestFirst)
    ensures forall j :: j in page ==> Matches(filter, jobs[j.id]) && BesideItsOwn(assets, j)
  {
    var clauses, _, _ := ListPredicates(filter);
    SelectIsDescribed(jobs, assets, clauses, filter);
    var ordered := OrderBy(Select(jobs, assets, clauses, Binds(filter)), SortKey(jobs, filter.newestFirst));
    page := Cut(ordered, limit, offset);
    whole := ordered;
    CutIsWithin(ordered, limit, offset);
    OrderedInTime(jobs, ListingRows(jobs, assets, filter), filter.newestFirst, ordered);
    CutInTime(jobs, ordered, filter.newestFirst, limit, offset);
    forall j | j in page ensures j in ListingRows(jobs, assets, filter) {
      assert j in Elements(ordered);
    }
  }

  lemma CutIsWithin<T>(whole: seq<T>, limit: nat, offset: nat)
    ensures forall x :: x in Cut(whole, limit, offset) ==> x in whole
  {
  }

  function Ids(rows: seq<Joined>): seq<string> { seq(|rows|, i requires 0 <= i < |rows| => rows[i].id) }

  lemma IdsOfRows(whole: seq<Joined>, rows: set<Joined>)
    requires NoRepeats(whole) && Elements(whole) == rows
    requires forall j, k :: j in rows && k in rows && j.id == k.id ==> j == k
    ensures NoRepeats(Ids(whole)) && Elements(Ids(whole)) == set j | j in rows :: j.id
  {
    assert forall i :: 0 <= i < |whole| ==> whole[i] in rows;
    forall j | j in rows ensures j.id in Ids(whole) {
      assert j in Elements(whole);
      var i :| 0 <= i < |whole| && whole[i] == j;
      assert Ids(whole)[i] == j.id;
    }
  }

  /**
   * Paging through one order of the listing shows every matching job exactly once, as many as `count` announced, and
   * within and across the pages none was created on the wrong side of an earlier one.
   */
  lemma PagesShowEachMatchOnce(jobs: Jobs, assets: Assets, filter: ListFilter, whole: seq<Joined>)
    requires Listable(jobs, assets)
    requires Ordering(whole, ListingRows(jobs, assets, filter), SortKey(jobs, filter.newestFirst))
    ensures var total := |MatchingJobs(jobs, filter)|;
      && |whole| == total
      && FirstPages(whole, PageCount(total)) == whole
      && NoRepeats(Ids(whole)) && Elements(Ids(whole)) == MatchingJobs(jobs, filter)
      && InTimeOrder(jobs, whole, filter.newestFirst)
  {
    OrderedInTime(jobs, ListingRows(jobs, assets, filter), filter.newestFirst, whole);
    CountsTheMatches(jobs, assets, filter);
    ElementsCount(whole);
    PagesPartition(whole);
    OneRowPerMatch(jobs, assets, filter);
    IdsOfRows(whole, ListingRows(jobs, assets, filter));
  }
}
