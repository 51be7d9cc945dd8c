/** Prompt validation: folding line ends, trimming, and the three reasons to refuse. */
module Prompt {
  import opened Basics
  import opened Texts

  const TAB: Scalar := 9
  const LF: Scalar := 10
  const CR: Scalar := 13

  datatype PromptError = PromptEmpty | PromptTooLong(limit: nat) | PromptControlChars

  predicate StartsWithCrLf(t: Text) { |t| >= 2 && t[0] == CR && t[1] == LF }

  /** `replace("\r\n", "\n")`. */
  function FoldLineEnds(t: Text): Text {
    if t == [] then []
    else if StartsWithCrLf(t) then [LF] + FoldLineEnds(t[2..])
    else [t[0]] + FoldLineEnds(t[1..])
  }

  predicate Disallowed(c: Scalar) { IsControl(c) && c != LF && c != TAB }

  function ValidatePrompt(raw: Text, maxChars: nat): Result<Text, PromptError> {
    var trimmed := Trim(FoldLineEnds(raw));
    if trimmed == [] then Err(PromptEmpty)
    else if |trimmed| > maxChars then Err(PromptTooLong(maxChars))
    else if exists i :: 0 <= i < |trimmed| && Disallowed(trimmed[i]) then Err(PromptControlChars)
    else Ok(trimmed)
  }

  /** What may be stored as a prompt. */
  predicate CleanPrompt(t: Text, maxChars: nat) {
    && t != [] && |t| <= maxChars
    && HasTightEnds(t)
    && forall i :: 0 <= i < |t| ==> !IsControl(t[i]) || t[i] == LF || t[i] == TAB
  }

  /** The same text with Windows line ends. */
  function WithCrLf(t: Text): Text {
    if t == [] then []
    else (if t[0] == LF then [CR, LF] else [t[0]]) + WithCrLf(t[1..])
  }

  predicate NoCrLf(t: Text) { forall i :: 0 <= i < |t| - 1 ==> t[i] != CR || t[i + 1] != LF }

  /** Folding leaves a text alone exactly when it has no `\r\n`. */
  lemma {:induction false} FoldStaysExactly(t: Text)
    ensures |FoldLineEnds(t)| <= |t|
    ensures FoldLineEnds(t) == t <==> NoCrLf(t)
  {
    if t != [] {
      if StartsWithCrLf(t) {
        FoldStaysExactly(t[2..]);
        assert !NoCrLf(t);
      } else {
        FoldStaysExactly(t[1..]);
        assert t == [t[0]] + t[1..];
        assert FoldLineEnds(t)[1..] == FoldLineEnds(t[1..]);
        assert NoCrLf(t) <==> NoCrLf(t[1..]) by {
          assert forall i :: 0 <= i < |t| - 2 ==> t[1..][i] == t[i + 1];
          assert forall i :: 1 <= i < |t| - 1 ==> t[i] == t[1..][i - 1];
        }
      }
    }
  }

  /** Folding undoes Windows line ends, whatever the text. */
  lemma {:induction false} FoldUndoesCrLf(t: Text)
    ensures FoldLineEnds(WithCrLf(t)) == t
  {
    if t != [] {
      FoldUndoesCrLf(t[1..]);
      var w := WithCrLf(t);
      var rest := WithCrLf(t[1..]);
      if t[0] == LF {
        assert w[2..] == rest;
      } else {
        assert w[1..] == rest;
        assert |t| > 1 && t[1] == LF ==> rest[0] == CR;
        assert |t| > 1 && t[1] != LF ==> rest[0] == t[1];
      }
    }
  }

  lemma CleanIsAccepted(t: Text, maxChars: nat)
    requires CleanPrompt(t, maxChars)
    ensures ValidatePrompt(t, maxChars) == Ok(t)
  {
    assert NoCrLf(t);
    FoldStaysExactly(t);
    TightIsTrimmed(t);
    assert forall i :: 0 <= i < |t| ==> !Disallowed(t[i]);
  }

  lemma AcceptedIsClean(raw: Text, maxChars: nat)
    requires ValidatePrompt(raw, maxChars).Ok?
    ensures CleanPrompt(ValidatePrompt(raw, maxChars).value, maxChars)
  {
    var t := ValidatePrompt(raw, maxChars).value;
    var i, j := TrimCuts(FoldLineEnds(raw));
    assert forall i :: 0 <= i < |t| ==> !Disallowed(t[i]);
  }

  /** The prompts that validation leaves alone are exactly the clean ones. */
  lemma FixedPointsAreTheClean(t: Text, maxChars: nat)
    ensures ValidatePrompt(t, maxChars) == Ok(t) <==> CleanPrompt(t, maxChars)
  {
    if CleanPrompt(t, maxChars) {
      CleanIsAccepted(t, maxChars);
    }
    if ValidatePrompt(t, maxChars) == Ok(t) {
      AcceptedIsClean(t, maxChars);
    }
  }

  /**
   * An accepted prompt is the middle of the folded text with only white space cut off, it is clean, and validating it
   * again changes nothing.
   */
  lemma AcceptedIsFinal(raw: Text, maxChars: nat) returns (i: nat, j: nat)
    requires ValidatePrompt(raw, maxChars).Ok?
    ensures var folded := FoldLineEnds(raw);
      var prompt := ValidatePrompt(raw, maxChars).value;
      && i <= j <= |folded| && prompt == folded[i..j]
      && AllWhitespace(folded[..i]) && AllWhitespace(folded[j..])
      && CleanPrompt(prompt, maxChars)
      && ValidatePrompt(prompt, maxChars) == Ok(prompt)
  {
    i, j := TrimCuts(FoldLineEnds(raw));
    AcceptedIsClean(raw, maxChars);
    CleanIsAccepted(ValidatePrompt(raw, maxChars).value, maxChars);
  }

  /** A text gets the same verdict and the same stored prompt with Unix and with Windows line ends. */
  lemma LineEndsDoNotMatter(t: Text, maxChars: nat)
    requires NoCrLf(t)
    ensures ValidatePrompt(WithCrLf(t), maxChars) == ValidatePrompt(t, maxChars)
  {
    FoldUndoesCrLf(t);
    FoldStaysExactly(t);
  }

  lemma BlankInParts(t: Text, n: nat)
    requires n <= |t|
    ensures AllWhitespace(t) <==> AllWhitespace(t[..n]) && AllWhitespace(t[n..])
  {
    if AllWhitespace(t[..n]) && AllWhitespace(t[n..]) {
      forall i | 0 <= i < |t| ensures IsWhitespace(t[i]) {
        assert t[i] == if i < n then t[..n][i] else t[n..][i - n];
      }
    }
  }

  lemma {:induction false} FoldKeepsBlankness(t: Text)
    ensures AllWhitespace(FoldLineEnds(t)) <==> AllWhitespace(t)
  {
    if t != [] {
      var n := if StartsWithCrLf(t) then 2 else 1;
      FoldKeepsBlankness(t[n..]);
      BlankInParts(t, n);
      BlankInParts(FoldLineEnds(t), 1);
      assert FoldLineEnds(t)[1..] == FoldLineEnds(t[n..]);
      if StartsWithCrLf(t) {
        assert t[..n] == [CR, LF] && FoldLineEnds(t)[..1] == [LF];
        assert IsWhitespace(CR) && IsWhitespace(LF);
      } else {
        assert t[..n] == FoldLineEnds(t)[..1];
      }
    }
  }

  /** A prompt is refused as empty exactly when every character of it is white space. */
  lemma EmptyExactlyWhenBlank(raw: Text, maxChars: nat)
    ensures ValidatePrompt(raw, maxChars) == Err(PromptEmpty) <==> AllWhitespace(raw)
  {
    var folded := FoldLineEnds(raw);
    FoldKeepsBlankness(raw);
    var i, j := TrimCuts(folded);
    assert folded == folded[..i] + folded[i..j] + folded[j..];
    assert i < j ==> !IsWhitespace(folded[i..j][0]) && folded[i..j][0] == folded[i];
  }

  lemma {:induction false} FoldConcat(a: Text, b: Text)
    requires a == [] || b == [] || a[|a| - 1] != CR || b[0] != LF
    ensures FoldLineEnds(a + b) == FoldLineEnds(a) + FoldLineEnds(b)
  {
    if a == [] {
      assert a + b == b;
    } else if StartsWithCrLf(a) {
      assert (a + b)[2..] == a[2..] + b && StartsWithCrLf(a + b);
      FoldConcat(a[2..], b);
    } else {
      assert (a + b)[1..] == a[1..] + b && (a + b)[0] == a[0] && !StartsWithCrLf(a + b);
      FoldConcat(a[1..], b);
    }
  }

  lemma FoldKeepsEnds(t: Text)
    requires t != [] && HasTightEnds(t)
    ensures FoldLineEnds(t) != [] && HasTightEnds(FoldLineEnds(t))
  {
    var last := t[|t| - 1];
    assert t == t[..|t| - 1] + [last];
    FoldConcat(t[..|t| - 1], [last]);
    assert FoldLineEnds([last]) == [last] by { assert [last][1..] == []; }
    assert FoldLineEnds(t)[0] == t[0];
  }

  /** Outer white space is cut off, whatever it is and whatever stands between. */
  lemma FoldsAndTrims(before: Text, middle: Text, after: Text)
    requires AllWhitespace(before) && AllWhitespace(after) && middle != [] && HasTightEnds(middle)
    ensures Trim(FoldLineEnds(before + middle + after)) == FoldLineEnds(middle) && FoldLineEnds(middle) != []
  {
    assert !IsWhitespace(middle[0]) && !IsWhitespace(middle[|middle| - 1]);
    FoldConcat(before + middle, after);
    FoldConcat(before, middle);
    FoldKeepsBlankness(before);
    FoldKeepsBlankness(after);
    FoldKeepsEnds(middle);
    PaddingIsTrimmed(FoldLineEnds(before), FoldLineEnds(middle), FoldLineEnds(after));
  }

  /**
   * The verdict on any text, said of what stands between its outer white space: nothing there is an empty prompt; else,
   * with its line ends folded, it is too long exactly above the limit, else it has control characters exactly when one
   * of them is neither LF nor TAB, and otherwise it is the accepted prompt.
   */
  lemma VerdictExactly(raw: Text, maxChars: nat) returns (i: nat, j: nat)
    ensures i <= j <= |raw| && AllWhitespace(raw[..i]) && AllWhitespace(raw[j..]) && HasTightEnds(raw[i..j])
    ensures var r := ValidatePrompt(raw, maxChars); var prompt := FoldLineEnds(raw[i..j]);
      && (r == Err(PromptEmpty) <==> i == j)
      && (r == Err(PromptTooLong(maxChars)) <==> i < j && |prompt| > maxChars)
      && (r == Err(PromptControlChars) <==>
            i < j && |prompt| <= maxChars && exists k :: 0 <= k < |prompt| && IsControl(prompt[k]) && prompt[k] !in {LF, TAB})
      && (r.Ok? ==> r.value == prompt)
  {
    i, j := TrimCuts(raw);
    assert raw == raw[..i] + raw[i..j] + raw[j..];
    EmptyExactlyWhenBlank(raw, maxChars);
    if i < j {
      assert raw[i..j][0] == raw[i];
      FoldsAndTrims(raw[..i], raw[i..j], raw[j..]);
    } else {
      BlankInParts(raw, i);
    }
  }

  /** White space around a clean prompt makes no difference. */
  lemma PaddingIsCut(before: Text, t: Text, after: Text, maxChars: nat)
    requires AllWhitespace(before) && AllWhitespace(after) && CleanPrompt(t, maxChars)
    ensures ValidatePrompt(before + t + after, maxChars) == Ok(t)
  {
    FoldsAndTrims(before, t, after);
    assert NoCrLf(t);
    FoldStaysExactly(t);
    assert forall i :: 0 <= i < |t| ==> !Disallowed(t[i]);
  }
}
