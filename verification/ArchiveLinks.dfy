/**
 * The query of the history and archive pages: reading it, and the links that
 * change one control and keep the others.
 */
module ArchiveLinks {
  import opened Basics
  import opened JobStatuses
  import opened BlobPaths
  import opened Percent
  import opened QueryStrings
  import opened Paging
  import opened Listing

  datatype ArchiveQuery = ArchiveQuery(
    eier: Option<string>,
    type_: Option<string>,
    sortering: Option<string>,
    side: Option<int>)
  {
    predicate OwnOnly() { eier != Some("alle") }

    function MediaFilter(): Option<MediaType> {
      if type_ == Some("bilde") then Some(Image)
      else if type_ == Some("lyd") then Some(Audio)
      else if type_ == Some("video") then Some(Video)
      else None
    }

    predicate NewestFirst() { sortering != Some("eldst") }

    function Page(): nat { PageIndex(side) }

    /** The `type` text itself; a missing one means the same as "alle". */
    function TypeText(): string { if type_.Some? then type_.value else "alle" }

    /** The filter a page is rendered from; the history always shows one's own, failures included. */
    function Filter(viewer: nat, history: bool): ListFilter {
      var own := history || OwnOnly();
      ListFilter(if own then Some(viewer) else None, MediaFilter(), !own, !history, NewestFirst())
    }
  }

  // ---------------------------------------------------------------- reading a query

  function DigitValue(c: char): nat
    requires IsDigit(c)
  {
    c as int - '0' as int
  }

  function FromDigits(s: string): (n: nat)
    requires forall i :: 0 <= i < |s| ==> IsDigit(s[i])
  {
    if s == "" then 0 else 10 * FromDigits(s[..|s| - 1]) + DigitValue(s[|s| - 1])
  }

  predicate AllDigits(s: string) { s != "" && forall i :: 0 <= i < |s| ==> IsDigit(s[i]) }

  /** `str::parse::<i64>`. */
  function ParseI64(s: string): Option<int> {
    var signed := s != "" && (s[0] == '+' || s[0] == '-');
    var digits := if signed then s[1..] else s;
    if !AllDigits(digits) then None
    else
      var n: int := if signed && s[0] == '-' then 0 - FromDigits(digits) else FromDigits(digits);
      if -MAX_I64 - 1 <= n <= MAX_I64 then Some(n) else None
  }

  /** One field of the record: a second value for it is an error, an unknown name is ignored. */
  function ReadPair(q: ArchiveQuery, p: Pair): Option<ArchiveQuery> {
    if p.0 == "eier" then (if q.eier.Some? then None else Some(q.(eier := Some(p.1))))
    else if p.0 == "type" then (if q.type_.Some? then None else Some(q.(type_ := Some(p.1))))
    else if p.0 == "sortering" then (if q.sortering.Some? then None else Some(q.(sortering := Some(p.1))))
    else if p.0 == "side" then
      (if q.side.Some? || ParseI64(p.1).None? then None else Some(q.(side := ParseI64(p.1))))
    else Some(q)
  }

  function ReadPairs(q: ArchiveQuery, pairs: seq<Pair>): Option<ArchiveQuery>
    decreases |pairs|
  {
    if pairs == [] then Some(q)
    else
      var next := ReadPair(q, pairs[0]);
      if next.None? then None else ReadPairs(next.value, pairs[1..])
  }

  const EMPTY := ArchiveQuery(None, None, None, None)

  /** What a request for the page with this query string sees; `None` is a refused request. */
  function Parse(query: string): Option<ArchiveQuery> { ReadPairs(EMPTY, ParsePairs(query, true)) }

  lemma {:induction false} DecimalReadsBack(n: nat)
    ensures AllDigits(Decimal(n)) && FromDigits(Decimal(n)) == n
  {
    if n >= 10 {
      DecimalReadsBack(n / 10);
      var s := Decimal(n);
      assert s == Decimal(n / 10) + [Digit(n % 10)];
      assert s[..|s| - 1] == Decimal(n / 10) && s[|s| - 1] == Digit(n % 10);
    } else {
      assert [Digit(n)][..0] == "";
    }
  }

  lemma SideReadsBack(n: nat)
    requires n <= MAX_I64
    ensures ParseI64(Decimal(n)) == Some(n) && IsBytes(Decimal(n))
  {
    DecimalReadsBack(n);
    assert IsDigit(Decimal(n)[0]);
  }

  /** Signs, and the two ends of the 64-bit range. */
  lemma NumbersReadBack(n: nat)
    ensures ParseI64(Decimal(n)) == ParseI64("+" + Decimal(n)) == if n <= 0x7FFF_FFFF_FFFF_FFFF then Some(n) else None
    ensures var m: int := 0 - n; ParseI64("-" + Decimal(n)) == if n <= 0x8000_0000_0000_0000 then Some(m) else None
    ensures ParseI64("") == ParseI64("+") == ParseI64("-") == None
  {
    DecimalReadsBack(n);
    assert IsDigit(Decimal(n)[0]);
    assert ("+" + Decimal(n))[1..] == Decimal(n) && ("-" + Decimal(n))[1..] == Decimal(n);
  }

  /** The record's own field names. */
  const FIELDS := {"eier", "type", "sortering", "side"}

  /** A field given before, or a page that is no number. */
  predicate RefusedAt(pairs: seq<Pair>, i: nat)
    requires i < |pairs|
  {
    || (pairs[i].0 in FIELDS && exists j :: 0 <= j < i && pairs[j].0 == pairs[i].0)
    || (pairs[i].0 == "side" && ParseI64(pairs[i].1).None?)
  }

  predicate RefusedSomewhere(pairs: seq<Pair>) { exists i: nat :: i < |pairs| && RefusedAt(pairs, i) }

  /** The field has the value of the pair with its name, and none without one. */
  predicate FieldRead(pairs: seq<Pair>, name: string, field: Option<string>) {
    if field.Some? then (name, field.value) in pairs else forall i :: 0 <= i < |pairs| ==> pairs[i].0 != name
  }

  predicate SideRead(pairs: seq<Pair>, side: Option<int>) {
    if side.Some? then exists i :: 0 <= i < |pairs| && pairs[i].0 == "side" && ParseI64(pairs[i].1) == side
    else forall i :: 0 <= i < |pairs| ==> pairs[i].0 != "side"
  }

  predicate RecordRead(pairs: seq<Pair>, q: ArchiveQuery) {
    && FieldRead(pairs, "eier", q.eier) && FieldRead(pairs, "type", q.type_)
    && FieldRead(pairs, "sortering", q.sortering) && SideRead(pairs, q.side)
  }

  lemma FieldReadOn(pairs: seq<Pair>, p: Pair, name: string, field: Option<string>, after: Option<string>)
    requires FieldRead(pairs, name, field)
    requires after == if p.0 == name then Some(p.1) else field
    ensures FieldRead(pairs + [p], name, after)
  {
    assert (pairs + [p])[|pairs|] == p;
    if after.Some? && p.0 != name {
      assert (name, field.value) in pairs + [p];
    }
  }

  lemma SideReadOn(pairs: seq<Pair>, p: Pair, side: Option<int>, after: Option<int>)
    requires SideRead(pairs, side) && (p.0 == "side" ==> ParseI64(p.1).Some?)
    requires after == if p.0 == "side" then ParseI64(p.1) else side
    ensures SideRead(pairs + [p], after)
  {
    assert (pairs + [p])[|pairs|] == p;
    if side.Some? && p.0 != "side" {
      var i :| 0 <= i < |pairs| && pairs[i].0 == "side" && ParseI64(pairs[i].1) == side;
      assert (pairs + [p])[i] == pairs[i];
    }
  }

  predicate Has(q: ArchiveQuery, name: string) {
    || (name == "eier" && q.eier.Some?) || (name == "type" && q.type_.Some?)
    || (name == "sortering" && q.sortering.Some?) || (name == "side" && q.side.Some?)
  }

  lemma PresentMeansRead(pairs: seq<Pair>, q: ArchiveQuery, name: string)
    requires RecordRead(pairs, q) && name in FIELDS
    ensures Has(q, name) <==> exists j :: 0 <= j < |pairs| && pairs[j].0 == name
  {
    NamesDiffer();
    if name == "eier" && q.eier.Some? { var j :| 0 <= j < |pairs| && pairs[j] == (name, q.eier.value); }
    if name == "type" && q.type_.Some? { var j :| 0 <= j < |pairs| && pairs[j] == (name, q.type_.value); }
    if name == "sortering" && q.sortering.Some? { var j :| 0 <= j < |pairs| && pairs[j] == (name, q.sortering.value); }
  }

  lemma OnePairExactly(pairs: seq<Pair>, q: ArchiveQuery, p: Pair)
    requires RecordRead(pairs, q)
    ensures ReadPair(q, p).None? <==> (p.0 in FIELDS && Has(q, p.0)) || (p.0 == "side" && ParseI64(p.1).None?)
    ensures ReadPair(q, p).Some? ==> RecordRead(pairs + [p], ReadPair(q, p).value)
  {
    NamesDiffer();
    var r := ReadPair(q, p);
    if r.Some? {
      FieldReadOn(pairs, p, "eier", q.eier, r.value.eier);
      FieldReadOn(pairs, p, "type", q.type_, r.value.type_);
      FieldReadOn(pairs, p, "sortering", q.sortering, r.value.sortering);
      SideReadOn(pairs, p, q.side, r.value.side);
    }
  }

  lemma OneMoreRefusal(pairs: seq<Pair>, p: Pair)
    ensures RefusedSomewhere(pairs + [p]) <==>
      || RefusedSomewhere(pairs)
      || (p.0 in FIELDS && exists j :: 0 <= j < |pairs| && pairs[j].0 == p.0)
      || (p.0 == "side" && ParseI64(p.1).None?)
  {
    var more := pairs + [p];
    assert forall i :: 0 <= i < |pairs| ==> more[i] == pairs[i];
    assert more[|pairs|] == p;
    assert forall i: nat :: i < |pairs| ==> (RefusedAt(more, i) <==> RefusedAt(pairs, i));
    if RefusedSomewhere(pairs) {
      var i: nat :| i < |pairs| && RefusedAt(pairs, i);
      assert RefusedAt(more, i);
    }
    assert RefusedAt(more, |pairs|) <==>
      (p.0 in FIELDS && exists j :: 0 <= j < |pairs| && pairs[j].0 == p.0) || (p.0 == "side" && ParseI64(p.1).None?);
  }

  lemma {:induction false} OneMorePair(q: ArchiveQuery, pairs: seq<Pair>, p: Pair)
    ensures ReadPairs(q, pairs + [p]) == var r := ReadPairs(q, pairs); if r.None? then None else ReadPair(r.value, p)
    decreases |pairs|
  {
    if pairs == [] {
      assert [] + [p] == [p] && [p][1..] == [];
    } else {
      assert (pairs + [p])[0] == pairs[0] && (pairs + [p])[1..] == pairs[1..] + [p];
      var next := ReadPair(q, pairs[0]);
      if next.Some? { OneMorePair(next.value, pairs[1..], p); }
    }
  }

  /**
   * Reading a query, said of its pairs: it is refused if and only if a field is given twice or a page is no number;
   * otherwise every field has the value of the pair with its name, and other names make no difference.
   */
  lemma {:induction false} ReadExactly(pairs: seq<Pair>)
    ensures ReadPairs(EMPTY, pairs).None? <==> RefusedSomewhere(pairs)
    ensures ReadPairs(EMPTY, pairs).Some? ==> RecordRead(pairs, ReadPairs(EMPTY, pairs).value)
    decreases |pairs|
  {
    if pairs != [] {
      var rest, p := pairs[..|pairs| - 1], pairs[|pairs| - 1];
      assert pairs == rest + [p];
      ReadExactly(rest);
      OneMorePair(EMPTY, rest, p);
      OneMoreRefusal(rest, p);
      var r := ReadPairs(EMPTY, rest);
      if r.Some? {
        OnePairExactly(rest, r.value, p);
        if p.0 in FIELDS { PresentMeansRead(rest, r.value, p.0); }
      }
    }
  }

  // ---------------------------------------------------------------- links

  predicate TextIsBytes(q: ArchiveQuery) {
    q.type_.Some? ==> IsBytes(q.type_.value)
  }

  function ScopeValue(q: ArchiveQuery, key: string, value: string): string {
    if key == "eier" then value else if q.OwnOnly() then "egne" else "alle"
  }

  function TypeValue(q: ArchiveQuery, key: string, value: string): string {
    if key == "type" then value else q.TypeText()
  }

  function SortValue(q: ArchiveQuery, key: string, value: string): string {
    if key == "sortering" then value else if q.NewestFirst() then "nyest" else "eldst"
  }

  function LinkPairs(q: ArchiveQuery, key: string, value: string): seq<Pair> {
    [("eier", ScopeValue(q, key, value))]
    + (if TypeValue(q, key, value) != "alle" then [("type", TypeValue(q, key, value))] else [])
    + [("sortering", SortValue(q, key, value))]
    + (if key == "side" then [("side", value)] else [])
  }

  lemma LinkPairsAreWellFormed(q: ArchiveQuery, key: string, value: string)
    requires TextIsBytes(q) && IsBytes(value)
    ensures WellFormed(LinkPairs(q, key, value))
  {
    assert Plain("eier") && Plain("type") && Plain("sortering") && Plain("side");
    assert IsBytes("egne") && IsBytes("alle") && IsBytes("nyest") && IsBytes("eldst");
  }

  /** Rebuilds the query string with one parameter replaced. */
  method With(q: ArchiveQuery, key: string, value: string) returns (url: string)
    requires TextIsBytes(q) && IsBytes(value)
    ensures WellFormed(LinkPairs(q, key, value))
    ensures url == "?" + JoinPairs(LinkPairs(q, key, value))
    ensures Parse(url[1..]) == Follow(q, key, value)
  {
    var parts: seq<Pair> := [];

    var eier := if key == "eier" then value else if q.OwnOnly() then "egne" else "alle";
    assert eier == ScopeValue(q, key, value);
    parts := parts + [("eier", eier)];

    var typeText := if key == "type" then value else if q.type_.Some? then q.type_.value else "alle";
    assert typeText == TypeValue(q, key, value);
    if typeText != "alle" {
      parts := parts + [("type", typeText)];
    }

    var sortering := if key == "sortering" then value else if q.NewestFirst() then "nyest" else "eldst";
    assert sortering == SortValue(q, key, value);
    parts := parts + [("sortering", sortering)];

    if key == "side" {
      parts := parts + [("side", value)];
    }
    assert parts == LinkPairs(q, key, value);
    LinkPairsAreWellFormed(q, key, value);
    url := "?" + JoinPairs(parts);
    UrlParses(q, key, value, url);
  }

  /** The page a link leads to, as the handler behind it reads the query. */
  function Follow(q: ArchiveQuery, key: string, value: string): Option<ArchiveQuery>
    requires TextIsBytes(q) && IsBytes(value)
  {
    LinkPairsAreWellFormed(q, key, value);
    Parse(JoinPairs(LinkPairs(q, key, value)))
  }

  lemma UrlParses(q: ArchiveQuery, key: string, value: string, url: string)
    requires TextIsBytes(q) && IsBytes(value) && WellFormed(LinkPairs(q, key, value))
    requires url == "?" + JoinPairs(LinkPairs(q, key, value))
    ensures Parse(url[1..]) == Follow(q, key, value)
  {
    assert url[1..] == JoinPairs(LinkPairs(q, key, value));
  }

  lemma NamesDiffer()
    ensures "eier" != "type" && "eier" != "sortering" && "eier" != "side"
    ensures "type" != "sortering" && "type" != "side" && "sortering" != "side"
  {
    assert "eier"[0] == 'e' && "type"[0] == 't' && "side"[1] == 'i';
    assert "sortering"[1] == 'o' && "sortering"[0] == 's' && "side"[0] == 's';
  }

  lemma ReadsEier(q: ArchiveQuery, v: string)
    requires q.eier.None?
    ensures ReadPairs(q, [("eier", v)]) == Some(q.(eier := Some(v)))
  {
    assert [("eier", v)][1..] == [];
  }

  lemma ReadsType(q: ArchiveQuery, v: string)
    requires q.type_.None?
    ensures ReadPairs(q, [("type", v)]) == Some(q.(type_ := Some(v)))
  {
    NamesDiffer();
    assert [("type", v)][1..] == [];
  }

  lemma ReadsSorting(q: ArchiveQuery, v: string)
    requires q.sortering.None?
    ensures ReadPairs(q, [("sortering", v)]) == Some(q.(sortering := Some(v)))
  {
    NamesDiffer();
    assert [("sortering", v)][1..] == [];
  }

  lemma ReadsSide(q: ArchiveQuery, v: string)
    requires q.side.None?
    ensures ReadPairs(q, [("side", v)]) == if ParseI64(v).None? then None else Some(q.(side := ParseI64(v)))
  {
    NamesDiffer();
    assert [("side", v)][1..] == [];
  }

  lemma {:induction false} ReadsInTurn(q: ArchiveQuery, first: seq<Pair>, second: seq<Pair>)
    requires ReadPairs(q, first).Some?
    ensures ReadPairs(q, first + second) == ReadPairs(ReadPairs(q, first).value, second)
    decreases |first|
  {
    if first == [] {
      assert first + second == second;
    } else {
      assert (first + second)[1..] == first[1..] + second;
      ReadsInTurn(ReadPair(q, first[0]).value, first[1..], second);
    }
  }

  /** Reads up to four parts, each naming another field. */
  lemma ReadsAll(eier: string, type_: Option<string>, sortering: string, side: Option<string>)
    ensures ReadPairs(EMPTY,
        [("eier", eier)] + (if type_.Some? then [("type", type_.value)] else [])
        + [("sortering", sortering)] + (if side.Some? then [("side", side.value)] else []))
      == if side.Some? && ParseI64(side.value).None? then None
         else Some(ArchiveQuery(Some(eier), type_, Some(sortering), if side.Some? then ParseI64(side.value) else None))
  {
    var a := [("eier", eier)];
    var b := if type_.Some? then [("type", type_.value)] else [];
    var c := [("sortering", sortering)];
    var d := if side.Some? then [("side", side.value)] else [];
    var q1 := EMPTY.(eier := Some(eier));
    var q2 := q1.(type_ := type_);
    ReadsEier(EMPTY, eier);
    if type_.Some? {
      ReadsType(q1, type_.value);
    }
    ReadsSorting(q2, sortering);
    if side.Some? {
      ReadsSide(q2.(sortering := Some(sortering)), side.value);
    }
    ReadsInTurn(EMPTY, a, b);
    ReadsInTurn(EMPTY, a + b, c);
    ReadsInTurn(EMPTY, a + b + c, d);
  }

  /** The fields of the query a link leads to. */
  lemma FollowReads(q: ArchiveQuery, key: string, value: string)
    requires TextIsBytes(q) && IsBytes(value)
    ensures Follow(q, key, value) == if key == "side" && ParseI64(value).None? then None else Some(ArchiveQuery(
        Some(ScopeValue(q, key, value)),
        if TypeValue(q, key, value) != "alle" then Some(TypeValue(q, key, value)) else None,
        Some(SortValue(q, key, value)),
        if key == "side" then ParseI64(value) else None))
  {
    LinkPairsAreWellFormed(q, key, value);
    PairsReadBack(LinkPairs(q, key, value), true);
    var typeText := TypeValue(q, key, value);
    ReadsAll(ScopeValue(q, key, value), if typeText != "alle" then Some(typeText) else None,
             SortValue(q, key, value), if key == "side" then Some(value) else None);
  }

  /**
   * Following a link: the named parameter has the new value, the other controls mean what they did, and the
   * page starts over unless the page is what changes. The request is refused only for a page that is no number.
   */
  lemma LinksUndoParsing(q: ArchiveQuery, key: string, value: string)
    requires TextIsBytes(q) && IsBytes(value)
    ensures var to := Follow(q, key, value);
      && (to.None? <==> key == "side" && ParseI64(value).None?)
      && (to.Some? ==>
            && to.value.OwnOnly() == (if key == "eier" then value != "alle" else q.OwnOnly())
            && to.value.TypeText() == (if key == "type" then value else q.TypeText())
            && to.value.NewestFirst() == (if key == "sortering" then value != "eldst" else q.NewestFirst())
            && to.value.side == (if key == "side" then ParseI64(value) else None)
            && (key != "side" ==> to.value.Page() == 0)
            && TextIsBytes(to.value))
  {
    FollowReads(q, key, value);
    assert "egne"[0] == 'e' && "alle"[0] == 'a' && "nyest"[0] == 'n' && "eldst"[0] == 'e';
  }
}
