/** Joining text with a separator character, finding it, and splitting at it. */
module Splitting {

  /** Position of the first `c`, or the length. */
  function Find(s: string, c: char): (i: nat)
    ensures i <= |s| && c !in s[..i] && (i < |s| ==> s[i] == c)
  {
    if s == "" || s[0] == c then 0 else 1 + Find(s[1..], c)
  }

  function After(s: string, i: nat): string { if i < |s| then s[i + 1..] else "" }

  function Join(fields: seq<string>, c: char): string
    requires fields != []
  {
    if |fields| == 1 then fields[0] else fields[0] + [c] + Join(fields[1..], c)
  }

  function Split(s: string, c: char): (fields: seq<string>)
    ensures fields != []
    decreases |s|
  {
    var end := Find(s, c);
    if end == |s| then [s] else [s[..end]] + Split(s[end + 1..], c)
  }

  predicate NoneHolds(fields: seq<string>, c: char) { forall i :: 0 <= i < |fields| ==> c !in fields[i] }

  lemma NoneHoldsInParts(a: seq<string>, b: seq<string>, c: char)
    ensures NoneHolds(a + b, c) <==> NoneHolds(a, c) && NoneHolds(b, c)
  {
    if NoneHolds(a + b, c) {
      assert forall i :: 0 <= i < |a| ==> a[i] == (a + b)[i];
      assert forall i :: 0 <= i < |b| ==> b[i] == (a + b)[|a| + i];
    }
  }

  lemma {:induction false} SplitFieldsAreWhole(s: string, c: char)
    ensures NoneHolds(Split(s, c), c)
    decreases |s|
  {
    var end := Find(s, c);
    if end < |s| {
      SplitFieldsAreWhole(s[end + 1..], c);
    } else {
      assert s[..end] == s;
    }
  }

  lemma {:induction false} JoinedSplits(fields: seq<string>, c: char)
    requires fields != [] && NoneHolds(fields, c)
    ensures Split(Join(fields, c), c) == fields
  {
    if |fields| == 1 {
      FindNone(fields[0], c);
    } else {
      var rest := Join(fields[1..], c);
      JoinedSplits(fields[1..], c);
      FindAt(fields[0], c, rest);
      assert Join(fields, c) == fields[0] + [c] + rest;
      assert Join(fields, c)[..|fields[0]|] == fields[0];
    }
  }

  /** Splitting a joined string gives the fields back exactly when none of them holds the separator. */
  lemma FieldsAreRecoveredExactly(fields: seq<string>, c: char)
    requires fields != []
    ensures Split(Join(fields, c), c) == fields <==> NoneHolds(fields, c)
  {
    SplitFieldsAreWhole(Join(fields, c), c);
    if NoneHolds(fields, c) {
      JoinedSplits(fields, c);
    }
  }

  lemma {:induction false} FindAt(a: string, c: char, b: string)
    requires c !in a
    ensures Find(a + [c] + b, c) == |a|
    ensures After(a + [c] + b, |a|) == b
  {
    var s := a + [c] + b;
    if a != "" {
      FindAt(a[1..], c, b);
      assert s[1..] == a[1..] + [c] + b;
    }
    assert s[|a| + 1..] == b;
  }

  lemma FindNone(a: string, c: char)
    requires c !in a
    ensures Find(a, c) == |a|
  {
  }
}
