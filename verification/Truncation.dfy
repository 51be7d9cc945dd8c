/**
 * Cutting text to a number of bytes without splitting a character: the audit
 * trail's user agent and the log summary of a provider's answer.
 */
module Truncation {
  import opened Basics
  import opened Percent
  import opened Texts

  const MAX_USER_AGENT := 512

  const MAX_SUMMARY := 400

  /** The longest valid UTF-8 prefix of `s` that fits in `cap` bytes ends at `end`. */
  ghost predicate LongestValidCut(s: string, cap: nat, end: nat) {
    && end <= |s| && end <= cap
    && ValidUtf8(s[..end])
    && (forall e :: end < e <= cap && e <= |s| ==> !ValidUtf8(s[..e]))
  }

  /** The loop of both callers: back up from `start` to a character boundary. */
  ghost predicate BacksUpTo(s: string, start: nat, end: nat) {
    && end <= start <= |s|
    && IsBoundary(s, end)
    && (forall e :: end < e <= start ==> !IsBoundary(s, e))
  }

  lemma BackingUpIsLongest(s: string, cap: nat, end: nat)
    requires ValidUtf8(s) && BacksUpTo(s, Min(cap, |s|), end)
    ensures LongestValidCut(s, cap, end)
    ensures Min(cap, |s|) <= end + 3
  {
    CutIsValidExactlyAtBoundaries(s, end);
    forall e | end < e <= cap && e <= |s| ensures !ValidUtf8(s[..e]) {
      CutIsValidExactlyAtBoundaries(s, e);
    }
    var t: Text :| Bytes(t) == s;
    var near := BoundaryIsNear(t, Min(cap, |s|));
  }

  datatype AuditRow = AuditRow(action: string, userAgent: Option<string>)

  /** The `audit_log` table: rows are only ever appended. */
  class AuditLog {
    var rows: seq<AuditRow>

    constructor ()
      ensures rows == []
    {
      rows := [];
    }

    /** The stored user agent is the longest valid prefix of the header that fits, short by at most three bytes. */
    method Record(action: string, userAgent: Option<string>)
      requires userAgent.Some? ==> ValidUtf8(userAgent.value)
      modifies this
      ensures |rows| == |old(rows)| + 1 && rows[..|old(rows)|] == old(rows)
      ensures var row := rows[|old(rows)|];
        && row.action == action
        && (row.userAgent.Some? <==> userAgent.Some?)
        && (userAgent.Some? ==>
              var kept := |row.userAgent.value|;
              && LongestValidCut(userAgent.value, 512, kept)
              && row.userAgent.value == userAgent.value[..kept]
              && Min(512, |userAgent.value|) <= kept + 3)
    {
      var cut := None;
      if userAgent.Some? {
        var value := userAgent.value;
        var end: nat := if |value| < MAX_USER_AGENT then |value| else MAX_USER_AGENT;
        while end > 0 && !IsBoundary(value, end)
          invariant 0 <= end <= |value| && end <= MAX_USER_AGENT
          invariant forall e: nat :: end < e <= Min(MAX_USER_AGENT, |value|) ==> !IsBoundary(value, e)
        {
          end := end - 1;
        }
        BackingUpIsLongest(value, MAX_USER_AGENT, end);
        cut := Some(value[..end]);
      }
      rows := rows + [AuditRow(action, cut)];
    }
  }

  const ELLIPSIS: Scalar := 0x2026

  /** A summary of at most 400 bytes of the body, trimmed, with an ellipsis when something was cut off. */
  ghost predicate IsSummary(body: Text, summary: Text) {
    if |Bytes(body)| <= 400 then summary == Trim(body)
    else exists k: nat ::
      && k <= |body|
      && LongestValidCut(Bytes(body), 400, |Bytes(body[..k])|)
      && 400 <= |Bytes(body[..k])| + 3
      && summary == Trim(body[..k]) + [ELLIPSIS]
  }

  lemma {:induction false} PartHasNoMoreBytes(t: Text, i: nat, j: nat)
    requires i <= j <= |t|
    ensures |Bytes(t[i..j])| <= |Bytes(t)|
  {
    assert t == t[..i] + t[i..j] + t[j..];
    BytesConcat(t[..i] + t[i..j], t[j..]);
    BytesConcat(t[..i], t[i..j]);
  }

  lemma TrimHasNoMoreBytes(t: Text)
    ensures |Bytes(Trim(t))| <= |Bytes(t)|
  {
    var i, j := TrimCuts(t);
    PartHasNoMoreBytes(t, i, j);
  }

  method Summarise(body: Text) returns (summary: Text)
    ensures IsSummary(body, summary)
    ensures |Bytes(summary)| <= 403
  {
    var bytes := Bytes(body);
    if |bytes| <= MAX_SUMMARY {
      TrimHasNoMoreBytes(body);
      return Trim(body);
    }
    var end: nat := MAX_SUMMARY;
    while end > 0 && !IsBoundary(bytes, end)
      invariant end <= MAX_SUMMARY
      invariant forall e: nat :: end < e <= MAX_SUMMARY ==> !IsBoundary(bytes, e)
    {
      end := end - 1;
    }
    ghost var k := CutText(body, end);
    var kept := TextOf(bytes[..end]);
    summary := Trim(kept) + [ELLIPSIS];
    TrimHasNoMoreBytes(kept);
    EllipsisAddsThree(Trim(kept));
  }

  lemma EllipsisAddsThree(t: Text)
    ensures |Bytes(t + [ELLIPSIS])| == |Bytes(t)| + 3
  {
    BytesConcat(t, [ELLIPSIS]);
    assert Bytes([ELLIPSIS]) == EncodeScalar(ELLIPSIS);
  }

  /** The text before the cut. */
  lemma CutText(body: Text, end: nat) returns (k: nat)
    requires MAX_SUMMARY < |Bytes(body)| && BacksUpTo(Bytes(body), MAX_SUMMARY, end)
    ensures k <= |body| && Bytes(body)[..end] == Bytes(body[..k]) && TextOf(Bytes(body)[..end]) == body[..k]
    ensures |Bytes(body[..k])| == end && LongestValidCut(Bytes(body), MAX_SUMMARY, end) && MAX_SUMMARY <= end + 3
  {
    BackingUpIsLongest(Bytes(body), MAX_SUMMARY, end);
    k := BoundaryCutsText(body, end);
    TextReadsBack(body[..k]);
  }
}
