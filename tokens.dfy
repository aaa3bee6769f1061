/** Token filtering after segmentation (tz.py:34):
    `[word for word in jieba.cut(text) if word.strip() and len(word) > 1]`.
    The segmenter is not modelled; its output is the sequence `segmented`. */
module Tokens {
  import opened Seqs
  import opened Text

  /** The comprehension's condition: not blank after stripping, and longer
      than one character. */
  predicate KeepToken(w: string) {
    Strip(w) != [] && |w| > 1
  }

  function KeptTokens(segmented: seq<string>): seq<string> {
    Filter(KeepToken, segmented)
  }

  /** Every kept token is longer than one character and holds a visible
      character, and the tokens kept are exactly those the condition admits,
      each as often as the segmenter produced it. */
  lemma KeptTokensSpec(segmented: seq<string>)
    ensures forall i :: 0 <= i < |KeptTokens(segmented)| ==>
      |KeptTokens(segmented)[i]| > 1
      && exists j :: 0 <= j < |KeptTokens(segmented)[i]| && !IsSpace(KeptTokens(segmented)[i][j])
    ensures forall w ::
      multiset(KeptTokens(segmented))[w] == (if KeepToken(w) then multiset(segmented)[w] else 0)
  {
    FilterCount(KeepToken, segmented);
    forall i | 0 <= i < |KeptTokens(segmented)|
      ensures exists j :: 0 <= j < |KeptTokens(segmented)[i]| && !IsSpace(KeptTokens(segmented)[i][j])
    {
      StripEmpty(KeptTokens(segmented)[i]);
    }
  }

  /** The kept list of a concatenation is the concatenation of the kept lists:
      filtering keeps the segmenter's order. */
  lemma KeptTokensAppend(a: seq<string>, b: seq<string>)
    ensures KeptTokens(a + b) == KeptTokens(a) + KeptTokens(b)
  {
    FilterAppend(KeepToken, a, b);
  }

  /** A segmenter output of which every token passes is kept unchanged. */
  lemma KeptTokensAll(segmented: seq<string>)
    requires forall i :: 0 <= i < |segmented| ==> KeepToken(segmented[i])
    ensures KeptTokens(segmented) == segmented
  {
    FilterAllKept(KeepToken, segmented);
  }
}
