/** The pages of an ordered listing, and what an order without a tie-break leaves open. */
module Paging {
  import opened Basics

  /** Rows per page. */
  const PAGE_SIZE := 24

  const MAX_I64 := 0x7FFF_FFFF_FFFF_FFFF

  /** The one-based `side` parameter as a zero-based index. */
  function PageIndex(side: Option<int>): nat {
    Max(if side.Some? then side.value else 1, 1) - 1
  }

  /** `total.div_euclid(PAGE_SIZE) + i64::from(total.rem_euclid(PAGE_SIZE) > 0)`, at least one. */
  function PageCount(total: nat): nat {
    Max(total / PAGE_SIZE + (if total % PAGE_SIZE > 0 then 1 else 0), 1)
  }

  /** `limit … offset …`. */
  function Cut<T>(whole: seq<T>, limit: nat, offset: nat): seq<T> {
    if offset >= |whole| then [] else whole[offset..Min(offset + limit, |whole|)]
  }

  function PageOf<T>(whole: seq<T>, index: nat): seq<T> {
    Cut(whole, PAGE_SIZE, index * PAGE_SIZE)
  }

  /** Pages 0 to n-1, one after another. */
  function FirstPages<T>(whole: seq<T>, n: nat): seq<T> {
    if n == 0 then [] else FirstPages(whole, n - 1) + PageOf(whole, n - 1)
  }

  lemma {:induction false} FirstPagesArePrefix<T>(whole: seq<T>, n: nat)
    ensures FirstPages(whole, n) == whole[..Min(n * PAGE_SIZE, |whole|)]
  {
    if n > 0 {
      FirstPagesArePrefix(whole, n - 1);
    }
  }

  /** The pages, one after another, are the listing: each row once, in order. */
  lemma PagesPartition<T>(whole: seq<T>)
    ensures FirstPages(whole, PageCount(|whole|)) == whole
  {
    FirstPagesArePrefix(whole, PageCount(|whole|));
  }

  /** A page shows something exactly when its number is among the announced pages; an empty listing has one empty page. */
  lemma PagesAreAnnounced<T>(whole: seq<T>, index: nat)
    ensures index < PageCount(|whole|) <==> index == 0 || PageOf(whole, index) != []
    ensures |PageOf(whole, index)| <= 24
    ensures index + 1 < PageCount(|whole|) ==> |PageOf(whole, index)| == 24
  {
  }

  /** The next link is rendered (`page < pages`) exactly when rows remain after this page. */
  lemma NextExactlyWhenRowsRemain(total: nat, index: nat)
    ensures index + 1 < PageCount(total) <==> index * PAGE_SIZE + PAGE_SIZE < total
  {
  }

  /** The offset is computed in 64 bits; it fits exactly up to this `side`. */
  lemma OffsetFitsExactly(side: Option<int>)
    ensures PageIndex(side) * PAGE_SIZE <= MAX_I64 <==> side.None? || side.value <= MAX_I64 / PAGE_SIZE + 1
  {
  }

  // ---------------------------------------------------------------- orders with ties

  function Elements<T>(s: seq<T>): set<T> { set x | x in s }

  ghost predicate NoRepeats<T>(s: seq<T>) {
    forall i, j :: 0 <= i < j < |s| ==> s[i] != s[j]
  }

  ghost predicate SortedBy<T>(s: seq<T>, key: T -> int) {
    forall i, j :: 0 <= i < j < |s| ==> key(s[i]) <= key(s[j])
  }

  /** What `order by` without a tie-break may return: every row once, in key order. */
  ghost predicate Ordering<T(!new)>(whole: seq<T>, rows: set<T>, key: T -> int) {
    NoRepeats(whole) && Elements(whole) == rows && SortedBy(whole, key)
  }

  lemma {:induction false} ElementsCount<T>(s: seq<T>)
    requires NoRepeats(s)
    ensures |Elements(s)| == |s|
  {
    if s != [] {
      var rest := s[..|s| - 1];
      ElementsCount(rest);
      assert s == rest + [s[|s| - 1]];
      assert Elements(s) == Elements(rest) + {s[|s| - 1]};
    }
  }

  /** A place for `x` in a sorted sequence. */
  lemma {:induction false} InsertionPoint<T>(s: seq<T>, x: T, key: T -> int) returns (at: nat)
    requires SortedBy(s, key)
    ensures at <= |s|
    ensures (forall i :: 0 <= i < at ==> key(s[i]) <= key(x)) && (forall i :: at <= i < |s| ==> key(x) <= key(s[i]))
  {
    at := 0;
    while at < |s| && key(s[at]) <= key(x)
      invariant at <= |s|
      invariant forall i :: 0 <= i < at ==> key(s[i]) <= key(x)
    {
      at := at + 1;
    }
  }

  /** Every finite selection has an ordering. */
  lemma {:induction false} OrderingExists<T(!new)>(rows: set<T>, key: T -> int) returns (whole: seq<T>)
    ensures Ordering(whole, rows, key) && |whole| == |rows|
  {
    if rows == {} {
      whole := [];
    } else {
      var x :| x in rows;
      var rest := OrderingExists(rows - {x}, key);
      var at := InsertionPoint(rest, x, key);
      assert forall i :: 0 <= i < |rest| ==> rest[i] in Elements(rest);
      whole := rest[..at] + [x] + rest[at..];
      InsertedKeepsOrder(rest, x, at, key);
      assert Elements(whole) == Elements(rest) + {x};
    }
  }

  lemma InsertedElements<T>(s: seq<T>, x: T, at: nat)
    requires at <= |s|
    ensures Elements(s[..at] + [x] + s[at..]) == Elements(s) + {x}
  {
    ElementsOfConcat(s[..at] + [x], s[at..]);
    ElementsOfConcat(s[..at], [x]);
    ElementsOfConcat(s[..at], s[at..]);
    assert s[..at] + s[at..] == s;
  }

  lemma InsertedKeepsOrder<T>(s: seq<T>, x: T, at: nat, key: T -> int)
    requires at <= |s| && SortedBy(s, key) && NoRepeats(s) && x !in s
    requires (forall i :: 0 <= i < at ==> key(s[i]) <= key(x)) && (forall i :: at <= i < |s| ==> key(x) <= key(s[i]))
    ensures SortedBy(s[..at] + [x] + s[at..], key) && NoRepeats(s[..at] + [x] + s[at..])
    ensures Elements(s[..at] + [x] + s[at..]) == Elements(s) + {x}
  {
    var t := s[..at] + [x] + s[at..];
    assert forall i :: 0 <= i < |t| ==> t[i] == (if i < at then s[i] else if i == at then x else s[i - 1]);
    InsertedElements(s, x, at);
  }

  lemma SubsetOfEqualSize<T>(a: set<T>, b: set<T>)
    requires a <= b && |a| == |b|
    ensures a == b
  {
    assert b == a + (b - a);
  }

  lemma SameSizeDiffer<T>(a: set<T>, b: set<T>) returns (x: T, y: T)
    requires |a| == |b| && a != b
    ensures x in a && x !in b && y in b && y !in a
  {
    if a <= b {
      SubsetOfEqualSize(a, b);
    }
    if b <= a {
      SubsetOfEqualSize(b, a);
    }
    x :| x in a && x !in b;
    y :| y in b && y !in a;
  }

  lemma StrictlyEarlierComesFirst<T(!new)>(whole: seq<T>, other: seq<T>, rows: set<T>, key: T -> int, k: nat, x: T, y: T)
    requires Ordering(whole, rows, key) && Ordering(other, rows, key)
    requires 0 < k < |whole| && k <= |other| && key(whole[k - 1]) != key(whole[k])
    requires x in whole[..k] && y in other[..k] && y !in whole[..k]
    ensures x in other[..k]
  {
    var i :| 0 <= i < k && whole[i] == x;
    var j :| 0 <= j < k && other[j] == y;
    assert x in Elements(whole) && y in Elements(other);
    var i' :| 0 <= i' < |other| && other[i'] == x;
    var j' :| 0 <= j' < |whole| && whole[j'] == y;
    assert key(whole[i]) <= key(whole[k - 1]) < key(whole[k]) <= key(whole[j']);
    assert i' < j;
    assert other[..k][i'] == x;
  }

  lemma CleanCut<T(!new)>(whole: seq<T>, other: seq<T>, rows: set<T>, key: T -> int, k: nat)
    requires Ordering(whole, rows, key) && Ordering(other, rows, key)
    requires 0 < k < |whole| && k <= |other| && key(whole[k - 1]) != key(whole[k])
    ensures Elements(other[..k]) == Elements(whole[..k])
  {
    ElementsCount(whole[..k]);
    ElementsCount(other[..k]);
    if Elements(other[..k]) != Elements(whole[..k]) {
      var x, y := SameSizeDiffer(Elements(whole[..k]), Elements(other[..k]));
      StrictlyEarlierComesFirst(whole, other, rows, key, k, x, y);
    }
  }

  lemma SwappedTie<T(!new)>(whole: seq<T>, rows: set<T>, key: T -> int, k: nat) returns (other: seq<T>)
    requires Ordering(whole, rows, key) && 0 < k < |whole| && key(whole[k - 1]) == key(whole[k])
    ensures Ordering(other, rows, key) && |other| == |whole|
    ensures forall i :: 0 <= i < |whole| ==> other[i] == whole[if i == k - 1 then k else if i == k then k - 1 else i]
  {
    other := whole[k - 1 := whole[k]][k := whole[k - 1]];
    assert forall i :: 0 <= i < |whole| ==> other[i] == whole[if i == k - 1 then k else if i == k then k - 1 else i];
    assert other[..k][k - 1] == whole[k];
    forall y ensures y in other <==> y in whole {
      if y in whole {
        var i :| 0 <= i < |whole| && whole[i] == y;
        assert other[if i == k - 1 then k else if i == k then k - 1 else i] == y;
      }
    }
    assert Elements(other) == Elements(whole);
  }

  /** No page boundary falls between two equal creation times. */
  ghost predicate CleanBoundaries<T(!new)>(whole: seq<T>, key: T -> int) {
    forall k :: 0 < k < |whole| && k % PAGE_SIZE == 0 ==> key(whole[k - 1]) != key(whole[k])
  }

  /** What a reader collects who opens pages 0 to n-1, page `i` answered from `orders[i]`. */
  function Collected<T>(orders: seq<seq<T>>, n: nat): seq<T>
    requires n <= |orders|
  {
    if n == 0 then [] else Collected(orders, n - 1) + PageOf(orders[n - 1], n - 1)
  }

  ghost predicate AllOrderings<T(!new)>(orders: seq<seq<T>>, rows: set<T>, key: T -> int) {
    forall i :: 0 <= i < |orders| ==> Ordering(orders[i], rows, key)
  }

  /** Whatever order each page is answered from, the announced pages together show every row. */
  ghost predicate NothingSkipped<T(!new)>(rows: set<T>, key: T -> int) {
    forall orders: seq<seq<T>> :: AllOrderings(orders, rows, key) && |orders| == PageCount(|rows|) ==>
      Elements(Collected(orders, |orders|)) == rows
  }

  lemma ElementsOfConcat<T>(a: seq<T>, b: seq<T>)
    ensures Elements(a + b) == Elements(a) + Elements(b)
  {
  }

  lemma {:induction false} OrderingsAreEquallyLong<T(!new)>(a: seq<T>, b: seq<T>, rows: set<T>, key: T -> int)
    requires Ordering(a, rows, key) && Ordering(b, rows, key)
    ensures |a| == |b| == |rows|
  {
    ElementsCount(a);
    ElementsCount(b);
  }

  lemma AgreeOnPrefix<T(!new)>(whole: seq<T>, other: seq<T>, rows: set<T>, key: T -> int, k: nat)
    requires Ordering(whole, rows, key) && Ordering(other, rows, key) && CleanBoundaries(whole, key)
    requires |whole| == |other| && k % PAGE_SIZE == 0
    ensures Elements(other[..Min(k, |whole|)]) == Elements(whole[..Min(k, |whole|)])
  {
    if k >= |whole| {
      assert other[..|whole|] == other && whole[..|whole|] == whole;
    } else if 0 < k {
      CleanCut(whole, other, rows, key, k);
    }
  }

  lemma {:induction false} CollectedPrefix<T(!new)>(whole: seq<T>, orders: seq<seq<T>>, rows: set<T>, key: T -> int, n: nat)
    requires Ordering(whole, rows, key) && AllOrderings(orders, rows, key) && CleanBoundaries(whole, key) && n <= |orders|
    ensures Elements(Collected(orders, n)) == Elements(whole[..Min(n * PAGE_SIZE, |whole|)])
  {
    if n > 0 {
      var order := orders[n - 1];
      var low, high := Min((n - 1) * PAGE_SIZE, |whole|), Min(n * PAGE_SIZE, |whole|);
      CollectedPrefix(whole, orders, rows, key, n - 1);
      OrderingsAreEquallyLong(whole, order, rows, key);
      AgreeOnPrefix(whole, order, rows, key, (n - 1) * PAGE_SIZE);
      AgreeOnPrefix(whole, order, rows, key, n * PAGE_SIZE);
      assert order[..high] == order[..low] + PageOf(order, n - 1);
      ElementsOfConcat(order[..low], PageOf(order, n - 1));
      ElementsOfConcat(Collected(orders, n - 1), PageOf(order, n - 1));
    }
  }

  lemma {:induction false} NeverCollected<T(!new)>(orders: seq<seq<T>>, x: T, n: nat)
    requires n <= |orders| && forall i :: 0 <= i < n ==> x !in PageOf(orders[i], i)
    ensures x !in Collected(orders, n)
  {
    if n > 0 {
      NeverCollected(orders, x, n - 1);
    }
  }

  lemma TieIsSkipped<T(!new)>(whole: seq<T>, rows: set<T>, key: T -> int, k: nat) returns (orders: seq<seq<T>>)
    requires Ordering(whole, rows, key) && 0 < k < |whole| && k % PAGE_SIZE == 0 && key(whole[k - 1]) == key(whole[k])
    ensures AllOrderings(orders, rows, key) && |orders| == PageCount(|rows|)
    ensures whole[k] in rows && whole[k] !in Elements(Collected(orders, |orders|))
  {
    var other := SwappedTie(whole, rows, key, k);
    var x := whole[k];
    orders := seq(PageCount(|rows|), i => if i < k / PAGE_SIZE then whole else other);
    assert x in Elements(whole);
    forall i | 0 <= i < |orders| ensures x !in PageOf(orders[i], i) {
      if i < k / PAGE_SIZE {
        assert (i + 1) * PAGE_SIZE <= k;
      } else {
        assert i * PAGE_SIZE >= k;
      }
    }
    NeverCollected(orders, x, |orders|);
  }

  /**
   * Paging shows every row, whatever order each page's query happens to use, exactly when no page boundary
   * falls between two equal creation times.
   */
  lemma NothingIsSkippedExactlyOffTies<T(!new)>(whole: seq<T>, rows: set<T>, key: T -> int)
    requires Ordering(whole, rows, key)
    ensures NothingSkipped(rows, key) <==> CleanBoundaries(whole, key)
  {
    if CleanBoundaries(whole, key) {
      forall orders: seq<seq<T>> | AllOrderings(orders, rows, key) && |orders| == PageCount(|rows|)
        ensures Elements(Collected(orders, |orders|)) == rows
      {
        CollectedPrefix(whole, orders, rows, key, |orders|);
        OrderingsAreEquallyLong(whole, whole, rows, key);
        assert whole[..|whole|] == whole;
      }
    } else {
      var k :| 0 < k < |whole| && k % PAGE_SIZE == 0 && key(whole[k - 1]) == key(whole[k]);
      var orders := TieIsSkipped(whole, rows, key, k);
    }
  }
}
