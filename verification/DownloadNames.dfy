/** The file name a download is saved under, and the header value that carries it. */
module DownloadNames {
  import opened Basics
  import opened Percent
  import opened Texts
  import opened Splitting

  const MAX_NAME := 100

  /** `char::is_alphanumeric`, of which only the ASCII part matters here. */
  type Alphanumeric = Scalar -> bool

  ghost predicate AgreesOnAscii(alnum: Alphanumeric) {
    forall c: Scalar :: c < 0x80 ==> (alnum(c) <==> 48 <= c <= 57 || 65 <= c <= 90 || 97 <= c <= 122)
  }

  /** `-`, `_` and `.` are kept beside letters and digits. */
  predicate Kept(c: Scalar, alnum: Alphanumeric) { alnum(c) || c == 45 || c == 95 || c == 46 }

  function KeepAllowed(name: Text, alnum: Alphanumeric): Text {
    if name == [] then []
    else (if Kept(name[0], alnum) then [name[0]] else []) + KeepAllowed(name[1..], alnum)
  }

  function FromAscii(s: string): (t: Text)
    requires forall i :: 0 <= i < |s| ==> s[i] as int < 0x80
    ensures |t| == |s| && forall i :: 0 <= i < |s| ==> t[i] == s[i] as int
  {
    seq(|s|, i requires 0 <= i < |s| => s[i] as int)
  }

  function Fallback(): Text { FromAscii("mediagenerator") }

  function Sanitise(name: Text, alnum: Alphanumeric): Text {
    var cleaned := KeepAllowed(name, alnum);
    var cut := if |cleaned| > MAX_NAME then cleaned[..MAX_NAME] else cleaned;
    if cut == [] then Fallback() else cut
  }

  ghost predicate SafeName(name: Text, alnum: Alphanumeric) {
    0 < |name| <= MAX_NAME && forall i :: 0 <= i < |name| ==> Kept(name[i], alnum)
  }

  lemma {:induction false} KeepAllowedKeeps(name: Text, alnum: Alphanumeric)
    ensures |KeepAllowed(name, alnum)| <= |name|
    ensures forall i :: 0 <= i < |KeepAllowed(name, alnum)| ==> Kept(KeepAllowed(name, alnum)[i], alnum)
    ensures KeepAllowed(name, alnum) == name <==> forall i :: 0 <= i < |name| ==> Kept(name[i], alnum)
  {
    if name != [] {
      var rest := name[1..];
      KeepAllowedKeeps(rest, alnum);
      assert name == [name[0]] + rest;
      assert (forall i :: 0 <= i < |name| ==> Kept(name[i], alnum))
        <==> Kept(name[0], alnum) && forall i :: 0 <= i < |rest| ==> Kept(rest[i], alnum) by {
        assert forall i :: 1 <= i < |name| ==> name[i] == rest[i - 1];
        assert forall i :: 0 <= i < |rest| ==> rest[i] == name[i + 1];
      }
    }
  }

  lemma {:induction false} KeepAllowedConcat(a: Text, b: Text, alnum: Alphanumeric)
    ensures KeepAllowed(a + b, alnum) == KeepAllowed(a, alnum) + KeepAllowed(b, alnum)
  {
    if a == [] {
      assert a + b == b;
    } else {
      assert (a + b)[1..] == a[1..] + b;
      KeepAllowedConcat(a[1..], b, alnum);
    }
  }

  lemma DisallowedIsDropped(a: Text, c: Scalar, b: Text, alnum: Alphanumeric)
    requires !Kept(c, alnum)
    ensures KeepAllowed(a + [c] + b, alnum) == KeepAllowed(a + b, alnum)
  {
    var one: Text := [c];
    assert one[0] == c && one[1..] == [];
    assert KeepAllowed(one[1..], alnum) == [];
    var dropped := KeepAllowed(one, alnum);
    assert dropped == [];
    KeepAllowedConcat(a + [c], b, alnum);
    KeepAllowedConcat(a, [c], alnum);
    KeepAllowedConcat(a, b, alnum);
    var before := KeepAllowed(a, alnum);
    assert before + dropped == before;
  }

  /** The characters at these positions, in this order. */
  function At(name: Text, positions: seq<nat>): Text
    requires Within(name, positions)
  {
    seq(|positions|, k requires 0 <= k < |positions| => name[positions[k]])
  }

  /** The positions, in order, of exactly the letters, digits, hyphens, underscores and full stops. */
  predicate KeptPositions(name: Text, positions: seq<nat>, alnum: Alphanumeric) {
    && Within(name, positions)
    && (forall k, l :: 0 <= k < l < |positions| ==> positions[k] < positions[l])
    && (forall i :: 0 <= i < |name| ==>
          (i in positions <==> alnum(name[i]) || name[i] == '-' as int || name[i] == '_' as int || name[i] == '.' as int))
  }

  /** Every position one further on. */
  function Moved(positions: seq<nat>): (moved: seq<nat>)
    ensures |moved| == |positions| && forall k :: 0 <= k < |positions| ==> moved[k] == positions[k] + 1
  {
    seq(|positions|, k requires 0 <= k < |positions| => positions[k] + 1)
  }

  lemma MovedMembers(positions: seq<nat>, i: nat)
    ensures i in Moved(positions) <==> i > 0 && i - 1 in positions
  {
    if i > 0 && i - 1 in positions {
      var k :| 0 <= k < |positions| && positions[k] == i - 1;
      assert Moved(positions)[k] == i;
    }
  }

  lemma PositionsMoveOn(name: Text, rest: seq<nat>, alnum: Alphanumeric)
    requires name != [] && KeptPositions(name[1..], rest, alnum)
    ensures KeptPositions(name, (if Kept(name[0], alnum) then [0] else []) + Moved(rest), alnum)
  {
    var first: seq<nat> := if Kept(name[0], alnum) then [0] else [];
    var positions := first + Moved(rest);
    forall i: nat | i < |name| ensures i in positions <==> Kept(name[i], alnum) {
      MovedMembers(rest, i);
      assert i in positions <==> i in first || i in Moved(rest);
      if i > 0 { assert name[1..][i - 1] == name[i]; }
    }
  }

  predicate Within(name: Text, positions: seq<nat>) { forall k :: 0 <= k < |positions| ==> positions[k] < |name| }

  lemma AtMoved(name: Text, rest: seq<nat>)
    requires name != [] && Within(name[1..], rest)
    ensures Within(name, Moved(rest)) && At(name, Moved(rest)) == At(name[1..], rest)
  {
  }

  lemma AtConcat(name: Text, a: seq<nat>, b: seq<nat>)
    requires Within(name, a) && Within(name, b)
    ensures Within(name, a + b) && At(name, a + b) == At(name, a) + At(name, b)
  {
  }

  lemma {:induction false} KeepsInOrder(name: Text, alnum: Alphanumeric) returns (positions: seq<nat>)
    ensures KeptPositions(name, positions, alnum) && KeepAllowed(name, alnum) == At(name, positions)
  {
    if name == [] {
      positions := [];
    } else {
      var rest := KeepsInOrder(name[1..], alnum);
      var first: seq<nat> := if Kept(name[0], alnum) then [0] else [];
      positions := first + Moved(rest);
      PositionsMoveOn(name, rest, alnum);
      AtMoved(name, rest);
      AtConcat(name, first, Moved(rest));
    }
  }

  /** The name is the first hundred of the allowed characters, in their order, or a fixed one when there are none. */
  lemma SanitisedExactly(name: Text, alnum: Alphanumeric) returns (positions: seq<nat>)
    ensures KeptPositions(name, positions, alnum)
    ensures Sanitise(name, alnum) ==
      if positions == [] then FromAscii("mediagenerator")
      else At(name, if |positions| > 100 then positions[..100] else positions)
  {
    positions := KeepsInOrder(name, alnum);
    if |positions| > 100 { AtCut(name, positions, 100); }
  }

  lemma AtCut(name: Text, positions: seq<nat>, n: nat)
    requires Within(name, positions) && n <= |positions|
    ensures At(name, positions[..n]) == At(name, positions)[..n]
  {
  }

  /** A character that is not allowed makes no difference, wherever it stands. */
  lemma DisallowedVanishes(a: Text, c: Scalar, b: Text, alnum: Alphanumeric)
    requires !Kept(c, alnum)
    ensures Sanitise(a + [c] + b, alnum) == Sanitise(a + b, alnum)
  {
    DisallowedIsDropped(a, c, b, alnum);
  }

  lemma FallbackIsSafe(alnum: Alphanumeric)
    requires AgreesOnAscii(alnum)
    ensures SafeName(Fallback(), alnum)
  {
    forall i | 0 <= i < |Fallback()| ensures Kept(Fallback()[i], alnum) {
      assert 'a' <= "mediagenerator"[i] <= 'z';
    }
  }

  /** Any name becomes a safe one, and exactly the safe names are left alone; so a second pass changes nothing. */
  lemma SanitisedIsSafe(name: Text, alnum: Alphanumeric)
    requires AgreesOnAscii(alnum)
    ensures SafeName(Sanitise(name, alnum), alnum)
    ensures Sanitise(name, alnum) == name <==> SafeName(name, alnum)
    ensures Sanitise(Sanitise(name, alnum), alnum) == Sanitise(name, alnum)
  {
    KeepAllowedKeeps(name, alnum);
    FallbackIsSafe(alnum);
    KeepAllowedKeeps(Sanitise(name, alnum), alnum);
  }

  lemma {:induction false} BytesAvoid(t: Text, b: Scalar)
    requires b < 0x80 && forall i :: 0 <= i < |t| ==> t[i] != b
    ensures Byte(b) !in Bytes(t)
  {
    if t != [] {
      BytesAvoid(t[1..], b);
      assert Byte(b) !in EncodeScalar(t[0]);
    }
  }

  function Disposition(name: Text): (s: string)
    ensures IsBytes(s)
  {
    assert IsBytes("attachment; filename=\"");
    "attachment; filename=\"" + Bytes(name) + "\""
  }

  /** What a header reader takes for the file name: the text between the first two quotes. */
  function QuotedPart(header: string): string {
    var opening := After(header, Find(header, '"'));
    opening[..Find(opening, '"')]
  }

  lemma SafeHasNoDelimiter(name: Text, alnum: Alphanumeric)
    requires AgreesOnAscii(alnum) && SafeName(name, alnum)
    ensures '"' !in Bytes(name) && '\n' !in Bytes(name) && '\r' !in Bytes(name)
  {
    assert !Kept(34, alnum) && !Kept(10, alnum) && !Kept(13, alnum);
    BytesAvoid(name, 34);
    BytesAvoid(name, 10);
    BytesAvoid(name, 13);
  }

  lemma QuotesAreFound(bytes: string)
    requires '"' !in bytes
    ensures QuotedPart("attachment; filename=\"" + bytes + "\"") == bytes
  {
    var before := "attachment; filename=";
    assert "attachment; filename=\"" == before + ['"'];
    assert before + ['"'] + (bytes + "\"") == "attachment; filename=\"" + bytes + "\"";
    FindAt(before, '"', bytes + "\"");
    FindAt(bytes, '"', "");
    assert bytes + ['"'] + "" == bytes + "\"";
  }

  lemma StaysOneLine(bytes: string, c: char)
    requires c !in bytes && (c == '\n' || c == '\r')
    ensures c !in "attachment; filename=\"" + bytes + "\""
  {
    assert c !in "attachment; filename=\"" && c !in "\"";
  }

  /** The header stays in one line and carries exactly the sanitised name. */
  lemma HeaderCarriesTheName(name: Text, alnum: Alphanumeric)
    requires AgreesOnAscii(alnum)
    ensures QuotedPart(Disposition(Sanitise(name, alnum))) == Bytes(Sanitise(name, alnum))
    ensures '\n' !in Disposition(Sanitise(name, alnum)) && '\r' !in Disposition(Sanitise(name, alnum))
  {
    SanitisedIsSafe(name, alnum);
    var bytes := Bytes(Sanitise(name, alnum));
    SafeHasNoDelimiter(Sanitise(name, alnum), alnum);
    QuotesAreFound(bytes);
    StaysOneLine(bytes, '\n');
    StaysOneLine(bytes, '\r');
  }
}
