/** Where generated media is stored, and why two jobs never share a path. */
module BlobPaths {
  import opened JobStatuses
  import opened Splitting

  /** Canonical text of a UUID: 36 lower-case hexadecimal digits and dashes. */
  predicate IsUuid(s: string) {
    |s| == 36 && forall c :: c in s ==> '0' <= c <= '9' || 'a' <= c <= 'f' || c == '-'
  }

  function Digit(d: nat): char
    requires d < 10
  {
    '0' + d as char
  }

  predicate IsDigit(c: char) { '0' <= c <= '9' }

  function Decimal(n: nat): (s: string)
    ensures |s| > 0
    ensures forall c :: c in s ==> IsDigit(c)
  {
    if n < 10 then [Digit(n)] else Decimal(n / 10) + [Digit(n % 10)]
  }

  /** Two digits, zero-padded. */
  function TwoDigits(n: nat): (s: string)
    requires n < 100
    ensures |s| == 2 && forall c :: c in s ==> IsDigit(c)
  {
    [Digit(n / 10), Digit(n % 10)]
  }

  function BlobPath(year: nat, month: nat, media: MediaType, jobId: string, extension: string): string
    requires 1 <= month <= 12
  {
    Decimal(year) + "/" + (TwoDigits(month) + "/" + (MediaText(media) + "/" + (jobId + "." + extension)))
  }

  /** What follows the first slash; empty when there is none. */
  function AfterSlash(s: string): string {
    if s == "" then "" else if s[0] == '/' then s[1..] else AfterSlash(s[1..])
  }

  /** The job a path belongs to: the 36 characters after the third slash. */
  function JobIdOf(path: string): string {
    var name := AfterSlash(AfterSlash(AfterSlash(path)));
    if |name| < 36 then name else name[..36]
  }

  lemma {:induction false} AfterSlashSkips(a: string, b: string)
    requires '/' !in a
    ensures AfterSlash(a + "/" + b) == b
    decreases a
  {
    var s := a + "/" + b;
    if a == "" {
      assert s[1..] == b;
    } else {
      assert s[0] == a[0];
      assert s[1..] == a[1..] + "/" + b;
      AfterSlashSkips(a[1..], b);
    }
  }

  lemma MediaTextHasNoSlash(media: MediaType)
    ensures '/' !in MediaText(media)
  {
  }

  /**
   * The job id can be read back from the path, whatever the date, media type and extension.
   */
  lemma PathNamesItsJob(year: nat, month: nat, media: MediaType, jobId: string, extension: string)
    requires 1 <= month <= 12 && IsUuid(jobId)
    ensures JobIdOf(BlobPath(year, month, media, jobId, extension)) == jobId
  {
    var rest3 := jobId + "." + extension;
    var rest2 := MediaText(media) + "/" + rest3;
    var rest1 := TwoDigits(month) + "/" + rest2;
    MediaTextHasNoSlash(media);
    AfterSlashSkips(Decimal(year), rest1);
    AfterSlashSkips(TwoDigits(month), rest2);
    AfterSlashSkips(MediaText(media), rest3);
    assert rest3[..36] == jobId;
  }

  /** Two jobs never share a path, even across dates, media types and extensions. */
  lemma PathsAreInjective(y1: nat, m1: nat, t1: MediaType, id1: string, e1: string,
                          y2: nat, m2: nat, t2: MediaType, id2: string, e2: string)
    requires 1 <= m1 <= 12 && 1 <= m2 <= 12 && IsUuid(id1) && IsUuid(id2)
    requires BlobPath(y1, m1, t1, id1, e1) == BlobPath(y2, m2, t2, id2, e2)
    ensures id1 == id2
  {
    PathNamesItsJob(y1, m1, t1, id1, e1);
    PathNamesItsJob(y2, m2, t2, id2, e2);
  }

  /** The parts between the slashes are the date, the type and the file name, in this order. */
  lemma PathReadsBack(year: nat, month: nat, media: MediaType, jobId: string, extension: string)
    requires 1 <= month <= 12 && IsUuid(jobId) && '/' !in extension
    ensures Split(BlobPath(year, month, media, jobId, extension), '/')
      == [Decimal(year), TwoDigits(month), MediaText(media), jobId + "." + extension]
  {
    var name := jobId + "." + extension;
    MediaTextHasNoSlash(media);
    assert '/' !in name;
    JoinOfFour(Decimal(year), TwoDigits(month), MediaText(media), name);
    JoinedSplits([Decimal(year), TwoDigits(month), MediaText(media), name], '/');
  }

  lemma JoinOfFour(a: string, b: string, c: string, d: string)
    ensures Join([a, b, c, d], '/') == a + "/" + (b + "/" + (c + "/" + d))
  {
    assert [a, b, c, d][1..] == [b, c, d] && [b, c, d][1..] == [c, d] && [c, d][1..] == [d];
    assert Join([c, d], '/') == c + "/" + d;
    assert Join([b, c, d], '/') == b + "/" + (c + "/" + d);
  }
}
