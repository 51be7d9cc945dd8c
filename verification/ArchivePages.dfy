/** One rendered page of the history or the archive, and the walk through its links. */
module ArchivePages {
  import opened Basics
  import opened BlobPaths
  import opened JobStatuses
  import opened Percent
  import opened QueryStrings
  import opened Tables
  import opened Paging
  import opened Listing
  import opened ArchiveLinks

  /** 64-bit multiplication as a release build computes it. */
  function WrapI64(n: int): int { (n + MAX_I64 + 1) % (2 * (MAX_I64 + 1)) - MAX_I64 - 1 }

  datatype ArchivePage = ArchivePage(entries: seq<Joined>, page: nat, pages: nat, previousUrl: string, nextUrl: string)

  /** The link to page number `n`. */
  function PageUrl(q: ArchiveQuery, n: nat): string
    requires TextIsBytes(q)
  {
    LinkPairsAreWellFormed(q, "side", DecimalBytes(n));
    "?" + JoinPairs(LinkPairs(q, "side", DecimalBytes(n)))
  }

  function DecimalBytes(n: nat): (s: string)
    ensures s == Decimal(n) && IsBytes(s)
  {
    assert forall i :: 0 <= i < |Decimal(n)| ==> IsDigit(Decimal(n)[i]);
    Decimal(n)
  }

  method LinkTo(q: ArchiveQuery, n: nat) returns (url: string)
    requires TextIsBytes(q)
    ensures url == PageUrl(q, n)
  {
    url := With(q, "side", DecimalBytes(n));
  }

  /**
   * What is around the entries: the database refuses a negative offset; otherwise the page is numbered, and the two
   * links are there exactly when there are earlier pages and remaining rows.
   */
  predicate Framed(q: ArchiveQuery, total: nat, r: Option<ArchivePage>)
    requires TextIsBytes(q)
  {
    && (r.Some? <==> WrapI64(q.Page() * PAGE_SIZE) >= 0)
    && (r.Some? ==>
          && r.value.page == q.Page() + 1
          && r.value.pages == PageCount(total)
          && r.value.previousUrl == (if q.Page() > 0 then PageUrl(q, q.Page()) else "")
          && r.value.nextUrl == (if q.Page() * PAGE_SIZE + PAGE_SIZE < total then PageUrl(q, q.Page() + 2) else ""))
  }

  /** A rendered page: its frame, and entries cut from some order of everything the filter matches. */
  ghost predicate Rendered(jobs: Jobs, assets: Assets, q: ArchiveQuery, viewer: nat, history: bool,
                           r: Option<ArchivePage>, whole: seq<Joined>)
    requires TextIsBytes(q)
  {
    var filter := q.Filter(viewer, history);
    && Framed(q, |MatchingJobs(jobs, filter)|, r)
    && (r.Some? ==>
          && Ordering(whole, ListingRows(jobs, assets, filter), SortKey(jobs, filter.newestFirst))
          && r.value.entries == Cut(whole, PAGE_SIZE, WrapI64(q.Page() * PAGE_SIZE)))
  }

  /** Whether the query shows this row to the viewer, said of the query's own words. */
  predicate Visible(q: ArchiveQuery, viewer: nat, history: bool, row: Row) {
    && (q.type_ == Some("bilde") ==> row.media.Image?)
    && (q.type_ == Some("lyd") ==> row.media.Audio?)
    && (q.type_ == Some("video") ==> row.media.Video?)
    && (if history then row.user == viewer
        else row.status.SucceededName? && if q.eier == Some("alle") then !row.hidden else row.user == viewer)
  }

  /**
   * The history shows all of one's own; the archive one's own successes, or on request everybody's that are not
   * hidden; and the type word narrows either. So nobody sees another's hidden, failed or unfinished work.
   */
  lemma WhatIsVisible(q: ArchiveQuery, viewer: nat, history: bool, row: Row)
    ensures Matches(q.Filter(viewer, history), row) <==> Visible(q, viewer, history, row)
    ensures Visible(q, viewer, history, row) && row.user != viewer ==> !row.hidden && row.status.SucceededName?
  {
    assert "bilde"[0] == 'b' && "lyd"[0] == 'l' && "video"[0] == 'v';
  }

  lemma VisibleAreTheMatches(q: ArchiveQuery, viewer: nat, history: bool, jobs: Jobs)
    ensures MatchingJobs(jobs, q.Filter(viewer, history)) == set id | id in jobs && Visible(q, viewer, history, jobs[id])
  {
    forall id | id in jobs ensures Matches(q.Filter(viewer, history), jobs[id]) <==> Visible(q, viewer, history, jobs[id]) {
      WhatIsVisible(q, viewer, history, jobs[id]);
    }
  }

  /** Visible rows, each beside its own asset, newest first unless the query says "eldst". */
  ghost predicate EntriesFit(jobs: Jobs, assets: Assets, q: ArchiveQuery, viewer: nat, history: bool, entries: seq<Joined>) {
    && InTimeOrder(jobs, entries, q.sortering != Some("eldst"))
    && forall j :: j in entries ==> Visible(q, viewer, history, jobs[j.id]) && BesideItsOwn(assets, j)
  }

  /** Counts, lists and links one page. */
  method Render(jobs: Jobs, assets: Assets, q: ArchiveQuery, viewer: nat, history: bool)
    returns (r: Option<ArchivePage>, ghost whole: seq<Joined>)
    requires Listable(jobs, assets) && TextIsBytes(q)
    ensures Framed(q, |MatchingJobs(jobs, q.Filter(viewer, history))|, r)
    ensures Rendered(jobs, assets, q, viewer, history, r, whole)
    ensures r.Some? ==> r.value.pages == PageCount(|set id | id in jobs && Visible(q, viewer, history, jobs[id])|)
    ensures r.Some? ==> EntriesFit(jobs, assets, q, viewer, history, r.value.entries)
  {
    VisibleAreTheMatches(q, viewer, history, jobs);
    var own := history || q.OwnOnly();
    var filter := ListFilter(if own then Some(viewer) else None, q.MediaFilter(), !own, !history, q.NewestFirst());
    var offset := WrapI64(q.Page() * PAGE_SIZE);

    var total := Count(jobs, assets, filter);
    if offset < 0 {
      whole := [];
      return None, whole;
    }
    var items, order := List(jobs, assets, filter, PAGE_SIZE, offset);
    whole := order;
    assert forall j :: j in items ==> j.id in MatchingJobs(jobs, q.Filter(viewer, history));

    var pages := total / PAGE_SIZE + (if total % PAGE_SIZE > 0 then 1 else 0);
    pages := if pages < 1 then 1 else pages;
    var page := q.Page() + 1;

    var previousUrl, nextUrl := "", "";
    if page > 1 {
      previousUrl := LinkTo(q, page - 1);
    }
    if page < pages {
      nextUrl := LinkTo(q, page + 1);
    }
    r := Some(ArchivePage(items, page, pages, previousUrl, nextUrl));
  }

  lemma SmallDoesNotWrap(n: nat)
    requires n <= MAX_I64
    ensures WrapI64(n) == n
  {
  }

  /** The computed offset is the true one exactly up to this `side`; the request is then answered. */
  lemma OffsetIsExactUpTo(q: ArchiveQuery)
    ensures WrapI64(q.Page() * PAGE_SIZE) == q.Page() * PAGE_SIZE
      <==> q.side.None? || q.side.value <= MAX_I64 / PAGE_SIZE + 1
  {
    OffsetFitsExactly(q.side);
    if q.Page() * PAGE_SIZE <= MAX_I64 {
      SmallDoesNotWrap(q.Page() * PAGE_SIZE);
    }
  }

  /**
   * Further out the product wraps. With `block` counting the multiples of 2^63 in it, an odd block is refused; an even
   * one is answered from an offset that many multiples too low.
   */
  lemma OffsetByBlock(n: nat)
    ensures var block := n / (MAX_I64 + 1);
      && (WrapI64(n) < 0 <==> block % 2 == 1)
      && (block % 2 == 0 ==> WrapI64(n) == n - block * (MAX_I64 + 1))
  {
    var half := MAX_I64 + 1;
    var block := n / half;
    var rest := n % half;
    assert n == block * half + rest;
    if block % 2 == 0 {
      assert n + half == block / 2 * (2 * half) + (half + rest);
    } else {
      assert n + half == (block / 2 + 1) * (2 * half) + rest;
    }
  }

  /**
   * A request past the exact range is refused exactly in the odd blocks. In the even ones it shows rows, although its
   * page has none, exactly when its wrapped offset falls inside the listing.
   */
  lemma BeyondTheRange<T>(q: ArchiveQuery, whole: seq<T>)
    requires |whole| <= MAX_I64 && q.side.Some? && q.side.value > MAX_I64 / PAGE_SIZE + 1
    ensures var n := q.Page() * PAGE_SIZE; var block := n / (MAX_I64 + 1);
      && block >= 1 && PageOf(whole, q.Page()) == []
      && (WrapI64(n) < 0 <==> block % 2 == 1)
      && (block % 2 == 0 ==>
            (Cut(whole, PAGE_SIZE, WrapI64(n)) != [] <==> n - block * (MAX_I64 + 1) < |whole|))
  {
    OffsetFitsExactly(q.side);
    OffsetByBlock(q.Page() * PAGE_SIZE);
  }

  /** One page past the range is an error; page 2^61 + 1 shows the first page. */
  lemma TwoFarPages(refused: ArchiveQuery, wrong: ArchiveQuery)
    requires refused.side == Some(MAX_I64 / PAGE_SIZE + 2) && wrong.side == Some(0x2000_0000_0000_0001)
    ensures WrapI64(refused.Page() * PAGE_SIZE) < 0
    ensures WrapI64(wrong.Page() * PAGE_SIZE) == 0 && wrong.Page() > 0
  {
  }

  lemma SameTypeSameMedia(p: ArchiveQuery, q: ArchiveQuery)
    requires p.TypeText() == q.TypeText()
    ensures p.MediaFilter() == q.MediaFilter()
  {
    assert "alle"[0] == 'a' && "bilde"[0] == 'b' && "lyd"[0] == 'l' && "video"[0] == 'v';
  }

  /** A page link leads to that page of the very same listing. */
  lemma PageLinkKeepsTheFilter(q: ArchiveQuery, n: nat, viewer: nat, history: bool)
    requires TextIsBytes(q) && 1 <= n <= MAX_I64
    ensures var to := Follow(q, "side", DecimalBytes(n));
      && to.Some? && TextIsBytes(to.value)
      && to.value.Page() == n - 1
      && to.value.Filter(viewer, history) == q.Filter(viewer, history)
  {
    LinksUndoParsing(q, "side", DecimalBytes(n));
    SideReadsBack(n);
    SameTypeSameMedia(Follow(q, "side", DecimalBytes(n)).value, q);
    NamesDiffer();
  }

  // ---------------------------------------------------------------- following the links

  /**
   * A visit: the queries opened, the pages they give, and the order each was rendered from. Each query is what the page
   * before's own next link parses to, and the last page has no next link.
   */
  datatype Visit = Visit(queries: seq<ArchiveQuery>, pages: seq<ArchivePage>, orders: seq<seq<Joined>>)

  /** Query `i` was answered with page `i`. */
  ghost predicate Answered(jobs: Jobs, assets: Assets, viewer: nat, history: bool, v: Visit, i: nat)
    requires i < |v.queries| == |v.pages| == |v.orders|
  {
    TextIsBytes(v.queries[i]) && Rendered(jobs, assets, v.queries[i], viewer, history, Some(v.pages[i]), v.orders[i])
  }

  /** Page `i` has a next link exactly when there is a query after it, and the link parses to it. */
  predicate LeadsOn(v: Visit, i: nat)
    requires i < |v.queries| == |v.pages|
  {
    if i + 1 < |v.pages| then v.pages[i].nextUrl != "" && Parse(v.pages[i].nextUrl[1..]) == Some(v.queries[i + 1])
    else v.pages[i].nextUrl == ""
  }

  ghost predicate IsVisit(jobs: Jobs, assets: Assets, viewer: nat, history: bool, q: ArchiveQuery, v: Visit) {
    && |v.queries| == |v.pages| == |v.orders| && v.queries != [] && v.queries[0] == q
    && (forall i: nat :: i < |v.pages| ==> Answered(jobs, assets, viewer, history, v, i))
    && (forall i: nat :: i < |v.pages| ==> LeadsOn(v, i))
  }

  /** All entries of a visit, in the order they are shown. */
  function Shown(pages: seq<ArchivePage>): seq<Joined> {
    if pages == [] then [] else Shown(pages[..|pages| - 1]) + pages[|pages| - 1].entries
  }

  lemma NextUrlLeadsOn(q: ArchiveQuery, viewer: nat, history: bool)
    requires TextIsBytes(q) && q.Page() + 2 <= MAX_I64
    ensures var url := PageUrl(q, q.Page() + 2); var to := Parse(url[1..]);
      && url != "" && to.Some? && TextIsBytes(to.value) && to.value.Page() == q.Page() + 1
      && to.value.Filter(viewer, history) == q.Filter(viewer, history)
  {
    PageLinkKeepsTheFilter(q, q.Page() + 2, viewer, history);
    var url := PageUrl(q, q.Page() + 2);
    LinkPairsAreWellFormed(q, "side", DecimalBytes(q.Page() + 2));
    assert url[1..] == JoinPairs(LinkPairs(q, "side", DecimalBytes(q.Page() + 2)));
  }

  /** Announced pages lie within the exact range. */
  lemma AnnouncedIsExact(total: nat, index: nat)
    requires total <= MAX_I64 && index < PageCount(total)
    ensures WrapI64(index * PAGE_SIZE) == index * PAGE_SIZE && index + 2 <= MAX_I64
  {
    SmallDoesNotWrap(index * PAGE_SIZE);
  }

  /** One page of a visit, if it is an announced one. */
  lemma AnnouncedPage(jobs: Jobs, assets: Assets, viewer: nat, history: bool, q: ArchiveQuery, r: ArchivePage, whole: seq<Joined>)
    requires TextIsBytes(q) && Rendered(jobs, assets, q, viewer, history, Some(r), whole)
    requires var total := |MatchingJobs(jobs, q.Filter(viewer, history))|; total <= MAX_I64 && q.Page() < PageCount(total)
    ensures var filter := q.Filter(viewer, history); var total := |MatchingJobs(jobs, filter)|;
      && r.entries == PageOf(whole, q.Page())
      && Ordering(whole, ListingRows(jobs, assets, filter), SortKey(jobs, filter.newestFirst))
      && (r.nextUrl == "" <==> q.Page() + 1 == PageCount(total))
      && (r.nextUrl != "" ==> q.Page() + 2 <= MAX_I64 && r.nextUrl == PageUrl(q, q.Page() + 2))
  {
    var total := |MatchingJobs(jobs, q.Filter(viewer, history))|;
    AnnouncedIsExact(total, q.Page());
    NextExactlyWhenRowsRemain(total, q.Page());
    NextUrlLeadsOn(q, viewer, history);
  }

  /** The query after an announced page asks for the next page of the same listing, and that is announced too. */
  lemma NextIsAnnounced(jobs: Jobs, assets: Assets, viewer: nat, history: bool,
                        q: ArchiveQuery, r: ArchivePage, whole: seq<Joined>, to: ArchiveQuery)
    requires TextIsBytes(q) && Rendered(jobs, assets, q, viewer, history, Some(r), whole)
    requires var total := |MatchingJobs(jobs, q.Filter(viewer, history))|; total <= MAX_I64 && q.Page() < PageCount(total)
    requires r.nextUrl != "" && Parse(r.nextUrl[1..]) == Some(to)
    ensures to.Page() == q.Page() + 1 && to.Filter(viewer, history) == q.Filter(viewer, history)
    ensures to.Page() < PageCount(|MatchingJobs(jobs, q.Filter(viewer, history))|)
  {
    AnnouncedPage(jobs, assets, viewer, history, q, r, whole);
    NextUrlLeadsOn(q, viewer, history);
  }

  /** The queries of a visit ask for one page after another of the same listing, all of them announced. */
  lemma {:induction false} QueriesAdvance(jobs: Jobs, assets: Assets, viewer: nat, history: bool, q: ArchiveQuery, v: Visit, i: nat)
    requires IsVisit(jobs, assets, viewer, history, q, v) && i < |v.pages|
    requires var total := |MatchingJobs(jobs, q.Filter(viewer, history))|; total <= MAX_I64 && q.Page() < PageCount(total)
    ensures v.queries[i].Page() == q.Page() + i && v.queries[i].Filter(viewer, history) == q.Filter(viewer, history)
    ensures q.Page() + i < PageCount(|MatchingJobs(jobs, q.Filter(viewer, history))|)
  {
    if i > 0 {
      var j := i - 1;
      QueriesAdvance(jobs, assets, viewer, history, q, v, j);
      assert Answered(jobs, assets, viewer, history, v, j) && LeadsOn(v, j);
      NextIsAnnounced(jobs, assets, viewer, history, v.queries[j], v.pages[j], v.orders[j], v.queries[i]);
    }
  }

  /** Page `i` of a visit, cut from its own order. */
  lemma VisitCuts(jobs: Jobs, assets: Assets, viewer: nat, history: bool, q: ArchiveQuery, v: Visit, i: nat)
    requires IsVisit(jobs, assets, viewer, history, q, v) && i < |v.pages|
    requires var total := |MatchingJobs(jobs, q.Filter(viewer, history))|; total <= MAX_I64 && q.Page() < PageCount(total)
    ensures var filter := q.Filter(viewer, history);
      && v.pages[i].entries == PageOf(v.orders[i], q.Page() + i)
      && Ordering(v.orders[i], ListingRows(jobs, assets, filter), SortKey(jobs, filter.newestFirst))
      && (v.pages[i].nextUrl == "" <==> q.Page() + i + 1 == PageCount(|MatchingJobs(jobs, filter)|))
  {
    QueriesAdvance(jobs, assets, viewer, history, q, v, i);
    assert Answered(jobs, assets, viewer, history, v, i);
    AnnouncedPage(jobs, assets, viewer, history, v.queries[i], v.pages[i], v.orders[i]);
  }

  /** A visit from an announced page on shows that page and all later ones, each cut from its own order. */
  lemma VisitShowsTheRest(jobs: Jobs, assets: Assets, viewer: nat, history: bool, q: ArchiveQuery, v: Visit)
    requires IsVisit(jobs, assets, viewer, history, q, v)
    requires var total := |MatchingJobs(jobs, q.Filter(viewer, history))|; total <= MAX_I64 && q.Page() < PageCount(total)
    ensures var filter := q.Filter(viewer, history);
      && |v.pages| == |v.orders| == PageCount(|MatchingJobs(jobs, filter)|) - q.Page()
      && AllOrderings(v.orders, ListingRows(jobs, assets, filter), SortKey(jobs, filter.newestFirst))
      && (forall i: nat :: i < |v.pages| ==> v.pages[i].entries == PageOf(v.orders[i], q.Page() + i))
  {
    var filter := q.Filter(viewer, history);
    forall i: nat | i < |v.pages|
      ensures v.pages[i].entries == PageOf(v.orders[i], q.Page() + i)
      ensures Ordering(v.orders[i], ListingRows(jobs, assets, filter), SortKey(jobs, filter.newestFirst))
    {
      VisitCuts(jobs, assets, viewer, history, q, v, i);
    }
    VisitCuts(jobs, assets, viewer, history, q, v, |v.pages| - 1);
    assert LeadsOn(v, |v.pages| - 1);
  }

  lemma {:induction false} ShownIsCollected(pages: seq<ArchivePage>, orders: seq<seq<Joined>>)
    requires |pages| <= |orders| && forall i: nat :: i < |pages| ==> pages[i].entries == PageOf(orders[i], i)
    ensures Shown(pages) == Collected(orders, |pages|)
  {
    if pages != [] {
      ShownIsCollected(pages[..|pages| - 1], orders);
    }
  }

  /** The page rendered for an announced query from this order. */
  function PageFor(q: ArchiveQuery, total: nat, order: seq<Joined>): ArchivePage
    requires TextIsBytes(q)
  {
    ArchivePage(PageOf(order, q.Page()), q.Page() + 1, PageCount(total),
                if q.Page() > 0 then PageUrl(q, q.Page()) else "",
                if q.Page() * PAGE_SIZE + PAGE_SIZE < total then PageUrl(q, q.Page() + 2) else "")
  }

  lemma PageForIsRendered(jobs: Jobs, assets: Assets, viewer: nat, history: bool, q: ArchiveQuery, order: seq<Joined>)
    requires TextIsBytes(q)
    requires var filter := q.Filter(viewer, history); var total := |MatchingJobs(jobs, filter)|;
      && total <= MAX_I64 && q.Page() < PageCount(total)
      && Ordering(order, ListingRows(jobs, assets, filter), SortKey(jobs, filter.newestFirst))
    ensures var total := |MatchingJobs(jobs, q.Filter(viewer, history))|;
      Rendered(jobs, assets, q, viewer, history, Some(PageFor(q, total, order)), order)
  {
    AnnouncedIsExact(|MatchingJobs(jobs, q.Filter(viewer, history))|, q.Page());
  }

  lemma PrependedIsVisit(jobs: Jobs, assets: Assets, viewer: nat, history: bool,
                         q: ArchiveQuery, page: ArchivePage, order: seq<Joined>, to: ArchiveQuery, rest: Visit)
    requires IsVisit(jobs, assets, viewer, history, to, rest)
    requires TextIsBytes(q) && Rendered(jobs, assets, q, viewer, history, Some(page), order)
    requires page.nextUrl != "" && Parse(page.nextUrl[1..]) == Some(to)
    ensures IsVisit(jobs, assets, viewer, history, q, Visit([q] + rest.queries, [page] + rest.pages, [order] + rest.orders))
  {
    var v := Visit([q] + rest.queries, [page] + rest.pages, [order] + rest.orders);
    forall i: nat | i < |v.pages| ensures Answered(jobs, assets, viewer, history, v, i) && LeadsOn(v, i) {
      if i > 0 {
        assert Answered(jobs, assets, viewer, history, rest, i - 1) && LeadsOn(rest, i - 1);
      }
    }
  }

  lemma LastPageIsVisit(jobs: Jobs, assets: Assets, viewer: nat, history: bool, q: ArchiveQuery, page: ArchivePage, order: seq<Joined>)
    requires TextIsBytes(q) && Rendered(jobs, assets, q, viewer, history, Some(page), order) && page.nextUrl == ""
    ensures IsVisit(jobs, assets, viewer, history, q, Visit([q], [page], [order]))
  {
    var v := Visit([q], [page], [order]);
    assert Answered(jobs, assets, viewer, history, v, 0) && LeadsOn(v, 0);
  }

  /** Any choice of orders is somebody's visit. */
  lemma {:induction false} VisitExists(jobs: Jobs, assets: Assets, viewer: nat, history: bool, q: ArchiveQuery,
                                       orders: seq<seq<Joined>>) returns (v: Visit)
    requires TextIsBytes(q)
    requires var filter := q.Filter(viewer, history); var total := |MatchingJobs(jobs, filter)|;
      && total <= MAX_I64 && q.Page() < PageCount(total) && |orders| == PageCount(total) - q.Page()
      && AllOrderings(orders, ListingRows(jobs, assets, filter), SortKey(jobs, filter.newestFirst))
    ensures IsVisit(jobs, assets, viewer, history, q, v) && v.orders == orders
    decreases |orders|
  {
    var total := |MatchingJobs(jobs, q.Filter(viewer, history))|;
    var page := PageFor(q, total, orders[0]);
    PageForIsRendered(jobs, assets, viewer, history, q, orders[0]);
    AnnouncedPage(jobs, assets, viewer, history, q, page, orders[0]);
    if |orders| > 1 {
      NextUrlLeadsOn(q, viewer, history);
      var to := Parse(page.nextUrl[1..]).value;
      assert to.Page() == q.Page() + 1 && to.Filter(viewer, history) == q.Filter(viewer, history);
      var rest := VisitExists(jobs, assets, viewer, history, to, orders[1..]);
      PrependedIsVisit(jobs, assets, viewer, history, q, page, orders[0], to, rest);
      v := Visit([q] + rest.queries, [page] + rest.pages, [orders[0]] + rest.orders);
    } else {
      LastPageIsVisit(jobs, assets, viewer, history, q, page, orders[0]);
      v := Visit([q], [page], [orders[0]]);
    }
  }

  /** Showing every row is showing every id, when no two rows share one. */
  lemma IdsCoverExactly(shown: seq<Joined>, rows: set<Joined>)
    requires Elements(shown) <= rows
    requires forall j, k :: j in rows && k in rows && j.id == k.id ==> j == k
    ensures Elements(Ids(shown)) == (set j | j in rows :: j.id) <==> Elements(shown) == rows
  {
    var ids := Ids(shown);
    forall j | j in shown ensures j.id in ids {
      var i :| 0 <= i < |shown| && shown[i] == j;
      assert ids[i] == j.id;
    }
    if Elements(ids) == (set j | j in rows :: j.id) {
      forall j | j in rows ensures j in Elements(shown) {
        assert j.id in Elements(ids);
        var i :| 0 <= i < |ids| && ids[i] == j.id;
        assert shown[i] in Elements(shown);
      }
    }
  }

  lemma PageIsFromRows(order: seq<Joined>, rows: set<Joined>, key: Joined -> int, index: nat)
    requires Ordering(order, rows, key)
    ensures Elements(PageOf(order, index)) <= rows
    ensures |PageOf(order, index)| == Min((index + 1) * PAGE_SIZE, |rows|) - Min(index * PAGE_SIZE, |rows|)
  {
    OrderingsAreEquallyLong(order, order, rows, key);
    CutIsWithin(order, PAGE_SIZE, index * PAGE_SIZE);
    assert Elements(PageOf(order, index)) <= Elements(order);
  }

  lemma {:induction false} CollectedFromRows(orders: seq<seq<Joined>>, rows: set<Joined>, key: Joined -> int, n: nat)
    requires n <= |orders| && AllOrderings(orders, rows, key)
    ensures Elements(Collected(orders, n)) <= rows && |Collected(orders, n)| == Min(n * PAGE_SIZE, |rows|)
  {
    if n > 0 {
      CollectedFromRows(orders, rows, key, n - 1);
      PageIsFromRows(orders[n - 1], rows, key, n - 1);
      ElementsOfConcat(Collected(orders, n - 1), PageOf(orders[n - 1], n - 1));
    }
  }

  /** A visit shows as many entries as the count announced, all of them matches. */
  lemma VisitShowsMatches(jobs: Jobs, assets: Assets, viewer: nat, history: bool, q: ArchiveQuery, v: Visit)
    requires Listable(jobs, assets) && q.Page() == 0 && IsVisit(jobs, assets, viewer, history, q, v)
    requires |MatchingJobs(jobs, q.Filter(viewer, history))| <= MAX_I64
    ensures var filter := q.Filter(viewer, history); var rows := ListingRows(jobs, assets, filter);
      && |Shown(v.pages)| == |MatchingJobs(jobs, filter)| == |rows| && Elements(Shown(v.pages)) <= rows
      && AllOrderings(v.orders, rows, SortKey(jobs, filter.newestFirst))
      && |v.orders| == PageCount(|rows|) && Shown(v.pages) == Collected(v.orders, |v.orders|)
      && (Elements(Ids(Shown(v.pages))) == MatchingJobs(jobs, filter) <==> Elements(Shown(v.pages)) == rows)
  {
    var filter := q.Filter(viewer, history);
    var rows := ListingRows(jobs, assets, filter);
    VisitShowsTheRest(jobs, assets, viewer, history, q, v);
    ShownIsCollected(v.pages, v.orders);
    CountsTheMatches(jobs, assets, filter);
    CollectedFromRows(v.orders, rows, SortKey(jobs, filter.newestFirst), |v.orders|);
    OneRowPerMatch(jobs, assets, filter);
    IdsCoverExactly(Shown(v.pages), rows);
  }

  /** Every visit shows every job visible to the viewer, and nothing else. */
  ghost predicate VisitsShowEverything(jobs: Jobs, assets: Assets, viewer: nat, history: bool, q: ArchiveQuery) {
    forall v :: IsVisit(jobs, assets, viewer, history, q, v) ==>
      Elements(Ids(Shown(v.pages))) == set id | id in jobs && Visible(q, viewer, history, jobs[id])
  }

  /**
   * Starting at a first page and following each page's own next link until there is none always shows every visible
   * job if and only if no page boundary falls between two equal creation times.
   */
  lemma FollowingNextShowsEverythingExactly(jobs: Jobs, assets: Assets, viewer: nat, history: bool, q: ArchiveQuery,
                                            whole: seq<Joined>)
    requires Listable(jobs, assets) && TextIsBytes(q) && q.Page() == 0
    requires |MatchingJobs(jobs, q.Filter(viewer, history))| <= MAX_I64
    requires var filter := q.Filter(viewer, history);
      Ordering(whole, ListingRows(jobs, assets, filter), SortKey(jobs, filter.newestFirst))
    ensures VisitsShowEverything(jobs, assets, viewer, history, q)
      <==> CleanBoundaries(whole, SortKey(jobs, q.Filter(viewer, history).newestFirst))
  {
    var filter := q.Filter(viewer, history);
    var rows := ListingRows(jobs, assets, filter);
    var key := SortKey(jobs, filter.newestFirst);
    VisibleAreTheMatches(q, viewer, history, jobs);
    NothingIsSkippedExactlyOffTies(whole, rows, key);
    CountsTheMatches(jobs, assets, filter);
    if CleanBoundaries(whole, key) {
      forall v | IsVisit(jobs, assets, viewer, history, q, v)
        ensures Elements(Ids(Shown(v.pages))) == set id | id in jobs && Visible(q, viewer, history, jobs[id])
      {
        VisitShowsMatches(jobs, assets, viewer, history, q, v);
      }
    } else {
      var orders: seq<seq<Joined>> :| AllOrderings(orders, rows, key) && |orders| == PageCount(|rows|)
        && Elements(Collected(orders, |orders|)) != rows;
      var v := VisitExists(jobs, assets, viewer, history, q, orders);
      VisitShowsMatches(jobs, assets, viewer, history, q, v);
    }
  }

  // ---------------------------------------------------------------- the controls

  /** The words the buttons use; "alle" for every type. */
  function TypeWord(m: Option<MediaType>): string {
    match m
    case None => "alle"
    case Some(Image) => "bilde"
    case Some(Audio) => "lyd"
    case Some(Video) => "video"
  }

  lemma TypeWordSelects(q: ArchiveQuery, m: Option<MediaType>)
    requires q.TypeText() == TypeWord(m)
    ensures q.MediaFilter() == m
  {
    assert "alle"[0] == 'a' && "bilde"[0] == 'b' && "lyd"[0] == 'l' && "video"[0] == 'v';
  }

  lemma WordsAreBytes(m: Option<MediaType>)
    ensures IsBytes(TypeWord(m)) && IsBytes("egne") && IsBytes("alle") && IsBytes("nyest") && IsBytes("eldst")
  {
  }

  /** Each control changes its own part of the filter, keeps the rest, and goes back to the first page. */
  lemma ControlsChangeOnePart(q: ArchiveQuery, m: Option<MediaType>, newest: bool, viewer: nat, history: bool)
    requires TextIsBytes(q)
    ensures IsBytes(TypeWord(m)) && IsBytes(if newest then "nyest" else "eldst")
    ensures var typed := Follow(q, "type", TypeWord(m));
      typed.Some? && typed.value.Page() == 0
      && typed.value.Filter(viewer, history) == q.Filter(viewer, history).(mediaType := m)
    ensures var sorted := Follow(q, "sortering", if newest then "nyest" else "eldst");
      sorted.Some? && sorted.value.Page() == 0
      && sorted.value.Filter(viewer, history) == q.Filter(viewer, history).(newestFirst := newest)
  {
    WordsAreBytes(m);
    NamesDiffer();
    var sort := if newest then "nyest" else "eldst";
    LinksUndoParsing(q, "type", TypeWord(m));
    LinksUndoParsing(q, "sortering", sort);
    TypeWordSelects(Follow(q, "type", TypeWord(m)).value, m);
    SameTypeSameMedia(Follow(q, "sortering", sort).value, q);
    assert "nyest"[0] != "eldst"[0];
  }
}
