/** The conditioning prompt handed to the zero-shot model.

    The prompt is a fixed assistant-role preamble, the end-of-prompt sentinel
    token, and then the optional reference transcript, verbatim.
 */
module Prompt {
  import opened Results

  /** The literal prefix the model needs to enter zero-shot cloning mode. */
  const PromptPrefix: string := "You are a helpful assistant.<|endofprompt|>"

  /** The assistant-role preamble part of the prefix. */
  const Preamble: string := "You are a helpful assistant."

  /** The sentinel that ends the conditioning prompt. */
  const EndOfPrompt: string := "<|endofprompt|>"

  /** The literal prefix is exactly preamble followed by sentinel. */
  lemma PrefixIsPreambleThenSentinel()
    ensures PromptPrefix == Preamble + EndOfPrompt
    ensures |Preamble| == 28 && |EndOfPrompt| == 15 && |PromptPrefix| == 43
  {
  }

  /** The full prompt: the transcript is appended only when it is truthy,
      yet the result is always the prefix followed by the transcript text
      (an empty or absent transcript adds nothing). */
  function FullPrompt(promptText: Option<string>): (p: string)
    ensures p == PromptPrefix + TextOf(promptText)
    ensures |p| == |PromptPrefix| + |TextOf(promptText)|
    ensures p[..|PromptPrefix|] == PromptPrefix
    ensures p[|PromptPrefix|..] == TextOf(promptText)
    ensures !Truthy(promptText) ==> p == PromptPrefix
  {
    if Truthy(promptText) then PromptPrefix + promptText.value
    else PromptPrefix
  }

  /** `pat` occurs in `s` starting at index `i`. */
  predicate OccursAt(s: string, pat: string, i: int)
  {
    0 <= i && i + |pat| <= |s| && s[i..i + |pat|] == pat
  }

  /** Every index at which `pat` occurs in `s`. */
  function Occurrences(s: string, pat: string): (at: set<int>)
  {
    set i | 0 <= i <= |s| - |pat| && OccursAt(s, pat, i)
  }

  /** The transcript is not checked for the sentinel, so the sentinel's
      occurrences in the full prompt are the one the prefix contributes,
      right after the preamble, plus every occurrence inside the transcript,
      shifted by the prefix length. */
  lemma SentinelOccurrences(promptText: Option<string>)
    ensures Occurrences(FullPrompt(promptText), EndOfPrompt)
         == {|Preamble|} + Shift(Occurrences(TextOf(promptText), EndOfPrompt), |PromptPrefix|)
  {
    PrefixIsPreambleThenSentinel();
    forall i | 0 <= i < |PromptPrefix| && i != |Preamble|
      ensures PromptPrefix[i] != EndOfPrompt[0]
    {
      if PromptPrefix[i] == '<' {
        OnlyOneOpeningAngle(i);
      }
    }
    OccurrencesAfterSentinelPrefix(PromptPrefix, TextOf(promptText), EndOfPrompt, |Preamble|);
  }

  /** When a prefix ends with `pat` at `k` and `pat`'s first character occurs
      nowhere else in it, the occurrences of `pat` in prefix + t are `k` and
      those of `t`, shifted past the prefix. */
  lemma OccurrencesAfterSentinelPrefix(pre: string, t: string, pat: string, k: int)
    requires |pat| > 0 && 0 <= k && k + |pat| == |pre| && pre[k..] == pat
    requires forall i :: 0 <= i < |pre| && i != k ==> pre[i] != pat[0]
    ensures Occurrences(pre + t, pat) == {k} + Shift(Occurrences(t, pat), |pre|)
  {
    var p := pre + t;
    var lhs := Occurrences(p, pat);
    var rhs := {k} + Shift(Occurrences(t, pat), |pre|);
    forall i | i in lhs
      ensures i in rhs
    {
      assert p[i] == p[i..i + |pat|][0];
      if i != k {
        var j := i - |pre|;
        assert p[i..i + |pat|] == t[j..j + |pat|];
        assert j in Occurrences(t, pat);
      }
    }
    forall i | i in rhs
      ensures i in lhs
    {
      if i == k {
        assert p[k..k + |pat|] == pre[k..];
      } else {
        var j := i - |pre|;
        assert j in Occurrences(t, pat);
        assert p[i..i + |pat|] == t[j..j + |pat|];
      }
    }
  }

  /** Adds `k` to every element of a set of indices. */
  function Shift(xs: set<int>, k: int): (ys: set<int>)
    ensures forall y :: y in ys <==> y - k in xs
  {
    set x | x in xs :: x + k
  }

  /** Inside the literal prefix the only '<' is the first character of the
      sentinel. */
  lemma OnlyOneOpeningAngle(i: int)
    requires 0 <= i < |PromptPrefix|
    requires PromptPrefix[i] == '<'
    ensures i == |Preamble|
  {
  }

  /** The sentinel appears exactly once in the full prompt if and only if
      the transcript does not itself contain it. */
  lemma SentinelOnceIff(promptText: Option<string>)
    ensures |Occurrences(FullPrompt(promptText), EndOfPrompt)| == 1
        <==> Occurrences(TextOf(promptText), EndOfPrompt) == {}
  {
    SentinelOccurrences(promptText);
    PrefixIsPreambleThenSentinel();
    OneMoreThanShifted(Occurrences(TextOf(promptText), EndOfPrompt), |Preamble|, |PromptPrefix|);
  }

  /** An index below the shift, joined to a shifted set of non-negative
      indices, is a singleton exactly when the set is empty. */
  lemma OneMoreThanShifted(occ: set<int>, k: int, n: int)
    requires k < n
    requires forall x :: x in occ ==> x >= 0
    ensures |{k} + Shift(occ, n)| == 1 <==> occ == {}
  {
    var shifted := Shift(occ, n);
    assert {k} * shifted == {};
    assert |{k} + shifted| == 1 + |shifted|;
    if occ != {} {
      var x :| x in occ;
      assert x + n in shifted;
    }
  }
}
