/**
 * Text as Unicode scalar values, its UTF-8 bytes (section 3 of RFC 3629), character
 * boundaries, and trimming.
 */
module Texts {
  import opened Percent

  type Scalar = c: nat | c < 0xD800 || 0xE000 <= c < 0x11_0000

  type Text = seq<Scalar>

  function Byte(b: nat): char
    requires b < 256
  {
    b as char
  }

  function EncodeScalar(c: Scalar): (s: string)
    ensures 1 <= |s| <= 4
    ensures forall i :: 0 <= i < |s| ==> s[i] as int < 256 && (Continuation(s[i]) <==> i > 0)
  {
    if c < 0x80 then [Byte(c)]
    else if c < 0x800 then [Byte(0xC0 + c / 64), Byte(0x80 + c % 64)]
    else if c < 0x1_0000 then [Byte(0xE0 + c / 4096), Byte(0x80 + c / 64 % 64), Byte(0x80 + c % 64)]
    else [Byte(0xF0 + c / 26_2144), Byte(0x80 + c / 4096 % 64), Byte(0x80 + c / 64 % 64), Byte(0x80 + c % 64)]
  }

  function Bytes(t: Text): (s: string)
    ensures IsBytes(s)
  {
    if t == [] then "" else EncodeScalar(t[0]) + Bytes(t[1..])
  }

  predicate Continuation(b: char) { 0x80 <= b as int < 0xC0 }

  ghost predicate ValidUtf8(s: string) { exists t: Text :: Bytes(t) == s }

  /** `str::is_char_boundary`. */
  predicate IsBoundary(s: string, i: nat) {
    i == 0 || i == |s| || (i < |s| && !Continuation(s[i]))
  }

  lemma {:induction false} BytesConcat(a: Text, b: Text)
    ensures Bytes(a + b) == Bytes(a) + Bytes(b)
  {
    if a == [] {
      assert a + b == b;
    } else {
      assert (a + b)[1..] == a[1..] + b;
      BytesConcat(a[1..], b);
    }
  }

  lemma StartsAtBoundary(t: Text)
    ensures t != [] ==> Bytes(t) != "" && !Continuation(Bytes(t)[0])
  {
    if t != [] {
      assert Bytes(t)[0] == EncodeScalar(t[0])[0];
    }
  }

  lemma NoBoundaryInside(c: Scalar, rest: string, i: nat)
    requires 0 < i < |EncodeScalar(c)|
    ensures !IsBoundary(EncodeScalar(c) + rest, i)
  {
    assert (EncodeScalar(c) + rest)[i] == EncodeScalar(c)[i];
  }

  lemma BoundaryAfter(first: string, rest: string, i: nat)
    requires first != "" && |first| <= i <= |first| + |rest|
    requires rest != "" ==> !Continuation(rest[0])
    ensures IsBoundary(first + rest, i) <==> IsBoundary(rest, i - |first|)
  {
    if i < |first| + |rest| {
      assert (first + rest)[i] == rest[i - |first|];
    }
  }

  lemma BoundarySplits(c: Scalar, first: string, rest: string, i: nat)
    requires first == EncodeScalar(c) && i <= |first| + |rest|
    requires rest != "" ==> !Continuation(rest[0])
    ensures 0 < i < |first| ==> !IsBoundary(first + rest, i)
    ensures |first| <= i ==> (IsBoundary(first + rest, i) <==> IsBoundary(rest, i - |first|))
  {
    if 0 < i < |first| {
      NoBoundaryInside(c, rest, i);
    } else if |first| <= i {
      BoundaryAfter(first, rest, i);
    }
  }

  /** Boundaries past the first scalar are those of the rest; inside the first scalar there are none. */
  lemma BoundaryShifts(t: Text, i: nat)
    requires t != [] && i <= |Bytes(t)|
    ensures var n := |EncodeScalar(t[0])|;
      && (0 < i < n ==> !IsBoundary(Bytes(t), i))
      && (n <= i ==> (IsBoundary(Bytes(t), i) <==> IsBoundary(Bytes(t[1..]), i - n)))
  {
    var first, rest := EncodeScalar(t[0]), Bytes(t[1..]);
    assert Bytes(t) == first + rest;
    StartsAtBoundary(t[1..]);
    BoundarySplits(t[0], first, rest, i);
  }

  /** A boundary cuts the text between two scalars. */
  lemma {:induction false} BoundaryCutsText(t: Text, i: nat) returns (k: nat)
    requires i <= |Bytes(t)| && IsBoundary(Bytes(t), i)
    ensures k <= |t| && Bytes(t)[..i] == Bytes(t[..k])
  {
    if i == 0 {
      k := 0;
    } else {
      var n := |EncodeScalar(t[0])|;
      BoundaryShifts(t, i);
      var k' := BoundaryCutsText(t[1..], i - n);
      k := k' + 1;
      assert t[..k][1..] == t[1..][..k'];
      assert Bytes(t)[..i] == EncodeScalar(t[0]) + Bytes(t[1..])[..i - n];
    }
  }

  /** The first byte tells how long a scalar is. */
  lemma FirstByteTellsLength(c: Scalar, d: Scalar)
    requires EncodeScalar(c)[0] == EncodeScalar(d)[0]
    ensures |EncodeScalar(c)| == |EncodeScalar(d)|
  {
  }

  /** A valid prefix of a valid text ends at a boundary. */
  lemma {:induction false} ValidPrefixEndsAtBoundary(t: Text, i: nat, p: Text)
    requires i <= |Bytes(t)| && Bytes(t)[..i] == Bytes(p)
    ensures IsBoundary(Bytes(t), i)
  {
    if p != [] {
      var n := |EncodeScalar(p[0])|;
      assert i > 0 && t != [];
      assert Bytes(t)[0] == Bytes(p)[0] == EncodeScalar(p[0])[0];
      FirstByteTellsLength(t[0], p[0]);
      BoundaryShifts(t, i);
      assert Bytes(t)[..i][n..] == Bytes(t[1..])[..i - n];
      assert Bytes(p)[n..] == Bytes(p[1..]);
      ValidPrefixEndsAtBoundary(t[1..], i - n, p[1..]);
    }
  }

  function ScalarLength(b: char): nat {
    if b as int < 0x80 then 1 else if b as int < 0xE0 then 2 else if b as int < 0xF0 then 3 else 4
  }

  function ScalarAt(s: string): nat
    requires s != "" && ScalarLength(s[0]) <= |s|
  {
    var n := ScalarLength(s[0]);
    if n == 1 then s[0] as int
    else if n == 2 then s[0] as int % 32 * 64 + s[1] as int % 64
    else if n == 3 then s[0] as int % 16 * 4096 + s[1] as int % 64 * 64 + s[2] as int % 64
    else s[0] as int % 8 * 26_2144 + s[1] as int % 64 * 4096 + s[2] as int % 64 * 64 + s[3] as int % 64
  }

  const REPLACEMENT: Scalar := 0xFFFD

  /** The text that valid UTF-8 spells. */
  function TextOf(s: string): Text {
    if s == "" then []
    else if |s| < ScalarLength(s[0]) || !(ScalarAt(s) < 0xD800 || 0xE000 <= ScalarAt(s) < 0x11_0000) then [REPLACEMENT]
    else [ScalarAt(s)] + TextOf(s[ScalarLength(s[0])..])
  }

  /** The groups of six bits a scalar is cut into. */
  lemma SixBitGroups(c: nat)
    ensures c == c / 64 * 64 + c % 64
    ensures c == c / 4096 * 4096 + c / 64 % 64 * 64 + c % 64
    ensures c == c / 26_2144 * 26_2144 + c / 4096 % 64 * 4096 + c / 64 % 64 * 64 + c % 64
  {
    var high := c / 64;
    var higher := high / 64;
    assert c == high * 64 + c % 64;
    assert high == higher * 64 + high % 64 && higher == higher / 64 * 64 + higher % 64;
    assert higher == c / 4096;
    assert higher / 64 == c / 26_2144;
  }

  lemma ShortScalarReadsBack(c: Scalar, s: string)
    requires c < 0x800 && EncodeScalar(c) <= s
    ensures ScalarLength(s[0]) == |EncodeScalar(c)| && ScalarAt(s) == c
  {
    SixBitGroups(c);
    assert forall i :: 0 <= i < |EncodeScalar(c)| ==> s[i] == EncodeScalar(c)[i];
  }

  lemma MiddleScalarReadsBack(c: Scalar, s: string)
    requires 0x800 <= c < 0x1_0000 && EncodeScalar(c) <= s
    ensures ScalarLength(s[0]) == |EncodeScalar(c)| && ScalarAt(s) == c
  {
    SixBitGroups(c);
    assert s[0] == EncodeScalar(c)[0] && s[1] == EncodeScalar(c)[1] && s[2] == EncodeScalar(c)[2];
  }

  lemma LongScalarReadsBack(c: Scalar, s: string)
    requires 0x1_0000 <= c && EncodeScalar(c) <= s
    ensures ScalarLength(s[0]) == |EncodeScalar(c)| && ScalarAt(s) == c
  {
    SixBitGroups(c);
    var e := EncodeScalar(c);
    assert s[0] == e[0] && s[1] == e[1] && s[2] == e[2] && s[3] == e[3];
  }

  lemma ScalarReadsBack(c: Scalar, rest: string)
    ensures var s := EncodeScalar(c) + rest;
      ScalarLength(s[0]) == |EncodeScalar(c)| && ScalarAt(s) == c
  {
    var s := EncodeScalar(c) + rest;
    assert EncodeScalar(c) <= s;
    if c < 0x800 {
      ShortScalarReadsBack(c, s);
    } else if c < 0x1_0000 {
      MiddleScalarReadsBack(c, s);
    } else {
      LongScalarReadsBack(c, s);
    }
  }

  /** Decoding gives back every text. */
  lemma {:induction false} TextReadsBack(t: Text)
    ensures TextOf(Bytes(t)) == t
  {
    if t != [] {
      var s := Bytes(t);
      ScalarReadsBack(t[0], Bytes(t[1..]));
      assert s == EncodeScalar(t[0]) + Bytes(t[1..]);
      assert s[|EncodeScalar(t[0])|..] == Bytes(t[1..]);
      TextReadsBack(t[1..]);
    }
  }

  /** Cutting valid UTF-8 leaves valid UTF-8 exactly at the boundaries. */
  lemma CutIsValidExactlyAtBoundaries(s: string, i: nat)
    requires ValidUtf8(s) && i <= |s|
    ensures ValidUtf8(s[..i]) <==> IsBoundary(s, i)
  {
    var t: Text :| Bytes(t) == s;
    if IsBoundary(s, i) {
      var k := BoundaryCutsText(t, i);
    }
    if ValidUtf8(s[..i]) {
      var p: Text :| Bytes(p) == s[..i];
      ValidPrefixEndsAtBoundary(t, i, p);
    }
  }

  /** Among any four neighbouring positions one is a boundary. */
  lemma {:induction false} BoundaryIsNear(t: Text, i: nat) returns (b: nat)
    requires i <= |Bytes(t)|
    ensures b <= i <= b + 3 && IsBoundary(Bytes(t), b)
  {
    if t == [] || i < |EncodeScalar(t[0])| {
      b := 0;
    } else {
      var n := |EncodeScalar(t[0])|;
      var b' := BoundaryIsNear(t[1..], i - n);
      b := b' + n;
      BoundaryShifts(t, b);
    }
  }

  // ---------------------------------------------------------------- white space

  /** The Unicode White_Space property. */
  predicate IsWhitespace(c: Scalar) {
    9 <= c <= 13 || c == 32 || c == 0x85 || c == 0xA0 || c == 0x1680 || 0x2000 <= c <= 0x200A
    || c == 0x2028 || c == 0x2029 || c == 0x202F || c == 0x205F || c == 0x3000
  }

  /** The Unicode general category Cc. */
  predicate IsControl(c: Scalar) { c < 0x20 || 0x7F <= c < 0xA0 }

  /** The 25 characters of the property, and the 65 of the category, one by one and as ranges. */
  lemma CharacterClasses(c: Scalar)
    ensures IsWhitespace(c) <==> c in {
      0x9, 0xA, 0xB, 0xC, 0xD, 0x20, 0x85, 0xA0, 0x1680,
      0x2000, 0x2001, 0x2002, 0x2003, 0x2004, 0x2005, 0x2006, 0x2007, 0x2008, 0x2009, 0x200A,
      0x2028, 0x2029, 0x202F, 0x205F, 0x3000}
    ensures IsControl(c) <==> c <= 0x1F || 0x7F <= c <= 0x9F
  {
  }

  function TrimStart(t: Text): Text {
    if t != [] && IsWhitespace(t[0]) then TrimStart(t[1..]) else t
  }

  function TrimEnd(t: Text): Text {
    if t != [] && IsWhitespace(t[|t| - 1]) then TrimEnd(t[..|t| - 1]) else t
  }

  function Trim(t: Text): Text { TrimEnd(TrimStart(t)) }

  predicate HasTightEnds(t: Text) {
    t != [] ==> !IsWhitespace(t[0]) && !IsWhitespace(t[|t| - 1])
  }

  predicate AllWhitespace(t: Text) { forall i :: 0 <= i < |t| ==> IsWhitespace(t[i]) }

  lemma {:induction false} TrimStartCuts(t: Text) returns (i: nat)
    ensures i <= |t| && TrimStart(t) == t[i..] && AllWhitespace(t[..i])
    ensures i < |t| ==> !IsWhitespace(t[i])
  {
    i := 0;
    if t != [] && IsWhitespace(t[0]) {
      var i' := TrimStartCuts(t[1..]);
      i := i' + 1;
      assert t[1..][i'..] == t[i..];
      assert forall j :: 1 <= j < i ==> t[..i][j] == t[1..][..i'][j - 1];
    }
  }

  lemma {:induction false} TrimEndCuts(t: Text) returns (j: nat)
    ensures j <= |t| && TrimEnd(t) == t[..j] && AllWhitespace(t[j..])
    ensures j > 0 ==> !IsWhitespace(t[j - 1])
  {
    j := |t|;
    if t != [] && IsWhitespace(t[|t| - 1]) {
      var init := t[..|t| - 1];
      j := TrimEndCuts(init);
      assert init[..j] == t[..j];
      assert forall k :: 0 <= k < |init| - j ==> t[j..][k] == init[j..][k];
    }
  }

  /** Trimming removes exactly the white space at both ends. */
  lemma TrimCuts(t: Text) returns (i: nat, j: nat)
    ensures i <= j <= |t| && Trim(t) == t[i..j]
    ensures AllWhitespace(t[..i]) && AllWhitespace(t[j..]) && HasTightEnds(t[i..j])
  {
    i := TrimStartCuts(t);
    var k := TrimEndCuts(t[i..]);
    j := i + k;
    assert t[i..][..k] == t[i..j];
    assert t[i..][k..] == t[j..];
  }

  /** White space around a text with tight ends is all that trimming removes. */
  lemma PaddingIsTrimmed(before: Text, middle: Text, after: Text)
    requires AllWhitespace(before) && AllWhitespace(after) && middle != [] && HasTightEnds(middle)
    ensures Trim(before + middle + after) == middle
  {
    var t := before + middle + after;
    var n := |before|;
    var m := n + |middle|;
    var i, j := TrimCuts(t);
    assert forall k :: 0 <= k < i ==> IsWhitespace(t[k]) by {
      assert forall k :: 0 <= k < i ==> t[..i][k] == t[k];
    }
    assert forall k :: j <= k < |t| ==> IsWhitespace(t[k]) by {
      assert forall k :: j <= k < |t| ==> t[j..][k - j] == t[k];
    }
    assert t[n] == middle[0] && t[m - 1] == middle[|middle| - 1];
    assert forall k :: 0 <= k < n ==> t[k] == before[k];
    assert forall k :: m <= k < |t| ==> t[k] == after[k - m];
    assert i <= n && m <= j;
    assert t[i..j][0] == t[i] && t[i..j][j - 1 - i] == t[j - 1];
    assert t[n..m] == middle;
  }

  lemma TightIsTrimmed(t: Text)
    requires HasTightEnds(t)
    ensures Trim(t) == t
  {
  }
}
