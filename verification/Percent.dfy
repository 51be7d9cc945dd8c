/**
 * Percent encoding as the archive links, the sign-in redirect and the signed blob URLs use it.
 * Text is held as its UTF-8 bytes, one `char` below 256 per byte.
 */
module Percent {

  predicate IsBytes(s: string) { forall i :: 0 <= i < |s| ==> s[i] as int < 256 }

  predicate Unreserved(c: char) {
    'A' <= c <= 'Z' || 'a' <= c <= 'z' || '0' <= c <= '9' || c == '-' || c == '_' || c == '.' || c == '~'
  }

  function HexDigit(d: nat): char
    requires d < 16
  {
    if d < 10 then '0' + d as char else 'A' + (d - 10) as char
  }

  predicate IsHex(c: char) { '0' <= c <= '9' || 'A' <= c <= 'F' || 'a' <= c <= 'f' }

  function HexValue(c: char): (d: nat)
    requires IsHex(c)
    ensures d < 16
  {
    if c <= '9' then (c - '0') as int else if c <= 'F' then (c - 'A') as int + 10 else (c - 'a') as int + 10
  }

  function EncodeByte(c: char): string
    requires c as int < 256
  {
    if Unreserved(c) then [c] else ['%', HexDigit(c as int / 16), HexDigit(c as int % 16)]
  }

  function Encode(s: string): string
    requires IsBytes(s)
  {
    if s == "" then "" else EncodeByte(s[0]) + Encode(s[1..])
  }

  /** Three characters `%XX` with hexadecimal digits at the front of `s`. */
  predicate StartsWithEscape(s: string) { |s| >= 3 && s[0] == '%' && IsHex(s[1]) && IsHex(s[2]) }

  /**
   * Percent-decoding (section 2.1 of RFC 3986; a `%` without two digits stands for itself). Form decoding,
   * section 5.1 of the WHATWG URL Standard, also reads `+` as a space.
   */
  function Decode(s: string, form: bool): string {
    if s == "" then ""
    else if StartsWithEscape(s) then [(16 * HexValue(s[1]) + HexValue(s[2])) as char] + Decode(s[3..], form)
    else [if form && s[0] == '+' then ' ' else s[0]] + Decode(s[1..], form)
  }

  lemma HexReadsBack(d: nat)
    requires d < 16
    ensures IsHex(HexDigit(d)) && HexValue(HexDigit(d)) == d
    ensures d >= 10 ==> var small := 'a' + (d - 10) as char; IsHex(small) && HexValue(small) == d
  {
  }

  lemma DecodesOneByte(c: char, rest: string, form: bool)
    requires c as int < 256
    ensures Decode(EncodeByte(c) + rest, form) == [c] + Decode(rest, form)
  {
    var s := EncodeByte(c) + rest;
    if Unreserved(c) {
      assert s[0] == c && s[1..] == rest;
    } else {
      HexReadsBack(c as int / 16);
      HexReadsBack(c as int % 16);
      assert s[3..] == rest;
      assert StartsWithEscape(s);
    }
  }

  /** Both decoders undo the encoder, for every byte string. */
  lemma {:induction false} RoundTrip(s: string, form: bool)
    requires IsBytes(s)
    ensures Decode(Encode(s), form) == s
  {
    if s != "" {
      RoundTrip(s[1..], form);
      DecodesOneByte(s[0], Encode(s[1..]), form);
    }
  }

  /** Only unreserved characters and `%` are produced, so no delimiter of a query survives. */
  lemma {:induction false} Alphabet(s: string)
    requires IsBytes(s)
    ensures forall c :: c in Encode(s) ==> Unreserved(c) || c == '%'
  {
    if s != "" {
      Alphabet(s[1..]);
    }
  }

  /** The three characters of Base64 that would change meaning in a URL, in upper-case hexadecimal. */
  lemma Base64SignsAreEscaped(before: string, after: string)
    requires IsBytes(before) && IsBytes(after)
    ensures IsBytes(before + "+" + after) && Encode(before + "+" + after) == Encode(before) + "%2B" + Encode(after)
    ensures IsBytes(before + "/" + after) && Encode(before + "/" + after) == Encode(before) + "%2F" + Encode(after)
    ensures IsBytes(before + "=" + after) && Encode(before + "=" + after) == Encode(before) + "%3D" + Encode(after)
  {
    EncodesBetween(before, '+', after);
    EncodesBetween(before, '/', after);
    EncodesBetween(before, '=', after);
  }

  lemma EncodesBetween(before: string, c: char, after: string)
    requires IsBytes(before) && c as int < 256 && IsBytes(after)
    ensures IsBytes(before + [c] + after)
    ensures Encode(before + [c] + after) == Encode(before) + EncodeByte(c) + Encode(after)
  {
    EncodeConcat(before, [c]);
    EncodeConcat(before + [c], after);
    assert Encode([c]) == EncodeByte(c);
  }

  lemma {:induction false} EncodeConcat(a: string, b: string)
    requires IsBytes(a) && IsBytes(b)
    ensures IsBytes(a + b) && Encode(a + b) == Encode(a) + Encode(b)
  {
    if a == "" {
      assert a + b == b;
    } else {
      EncodeConcat(a[1..], b);
      assert (a + b)[1..] == a[1..] + b;
    }
  }

  predicate Plain(s: string) { forall i :: 0 <= i < |s| ==> Unreserved(s[i]) }

  lemma {:induction false} PlainStays(s: string)
    requires Plain(s)
    ensures IsBytes(s) && Encode(s) == s
  {
    if s != "" {
      PlainStays(s[1..]);
    }
  }

  /** Different texts have different encodings. */
  lemma EncodeIsInjective(a: string, b: string)
    requires IsBytes(a) && IsBytes(b) && Encode(a) == Encode(b)
    ensures a == b
  {
    RoundTrip(a, false);
    RoundTrip(b, false);
  }

  method EncodeText(value: string) returns (encoded: string)
    requires IsBytes(value)
    ensures encoded == Encode(value)
    ensures Decode(encoded, false) == value && Decode(encoded, true) == value
  {
    encoded := "";
    for i := 0 to |value|
      invariant encoded == Encode(value[..i])
    {
      var c := value[i];
      assert value[..i + 1] == value[..i] + [c];
      EncodeConcat(value[..i], [c]);
      assert Encode([c]) == EncodeByte(c);
      if 'A' <= c <= 'Z' || 'a' <= c <= 'z' || '0' <= c <= '9' || c == '-' || c == '_' || c == '.' || c == '~' {
        encoded := encoded + [c];
      } else {
        encoded := encoded + ['%', HexDigit(c as int / 16), HexDigit(c as int % 16)];
      }
    }
    assert value[..|value|] == value;
    RoundTrip(value, false);
    RoundTrip(value, true);
  }
}
