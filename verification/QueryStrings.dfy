/** Query strings: `name=value` parts joined with `&`, values percent-encoded, and the parser that undoes it. */
module QueryStrings {
  import opened Percent
  import opened Splitting

  type Pair = (string, string)

  function JoinPairs(pairs: seq<Pair>): string
    requires forall p :: p in pairs ==> IsBytes(p.1)
  {
    if pairs == [] then ""
    else if |pairs| == 1 then pairs[0].0 + "=" + Encode(pairs[0].1)
    else pairs[0].0 + "=" + Encode(pairs[0].1) + "&" + JoinPairs(pairs[1..])
  }

  function ParsePair(piece: string, form: bool): Pair {
    var eq := Find(piece, '=');
    (Decode(piece[..eq], form), Decode(After(piece, eq), form))
  }

  /** With `form` set, the application/x-www-form-urlencoded parser, section 5.1 of the WHATWG URL Standard. */
  function ParsePairs(s: string, form: bool): seq<Pair>
    decreases |s|
  {
    if s == "" then []
    else
      var end := Find(s, '&');
      (if end == 0 then [] else [ParsePair(s[..end], form)]) + ParsePairs(After(s, end), form)
  }

  predicate WellFormed(pairs: seq<Pair>) {
    forall i :: 0 <= i < |pairs| ==> pairs[i].0 != "" && Plain(pairs[i].0) && IsBytes(pairs[i].1)
  }

  lemma EncodedHasNoDelimiter(s: string)
    requires IsBytes(s)
    ensures '=' !in Encode(s) && '&' !in Encode(s)
  {
    Alphabet(s);
  }

  lemma PlainHasNoDelimiter(s: string, form: bool)
    requires Plain(s)
    ensures '=' !in s && '&' !in s && IsBytes(s) && Decode(s, form) == s
  {
    PlainStays(s);
    RoundTrip(s, form);
  }

  lemma PieceReadsBack(p: Pair, form: bool)
    requires p.0 != "" && Plain(p.0) && IsBytes(p.1)
    ensures var piece := p.0 + "=" + Encode(p.1);
      ParsePair(piece, form) == p && '&' !in piece && piece != ""
  {
    var encoded := Encode(p.1);
    var piece := p.0 + "=" + encoded;
    EncodedHasNoDelimiter(p.1);
    PlainHasNoDelimiter(p.0, form);
    RoundTrip(p.1, form);
    FindAt(p.0, '=', encoded);
    assert piece[..|p.0|] == p.0;
  }

  lemma {:induction false} PairsReadBack(pairs: seq<Pair>, form: bool)
    requires WellFormed(pairs)
    ensures ParsePairs(JoinPairs(pairs), form) == pairs
  {
    if pairs != [] {
      var piece := pairs[0].0 + "=" + Encode(pairs[0].1);
      PieceReadsBack(pairs[0], form);
      if |pairs| == 1 {
        FindNone(piece, '&');
        assert piece[..|piece|] == piece;
      } else {
        PairsReadBack(pairs[1..], form);
        FindAt(piece, '&', JoinPairs(pairs[1..]));
        assert JoinPairs(pairs) == piece + "&" + JoinPairs(pairs[1..]);
        assert JoinPairs(pairs)[..|piece|] == piece;
      }
    }
  }
}
