// data_multi.py: the passage bookkeeping around the relevance scores. The
// concatenated context is cut back into its passages with the recorded
// passage lengths (passageRevelevance), and each passage's relevance score is
// spread over its tokens and padded with 0.0 (passageWeight). The TF-IDF
// scoring itself is a parameter.

module Relevance {
  import opened Tokens
  import opened Detokenize

  /** Python's `s[a:b]` for 0 <= a <= b: both ends are clamped to the length. */
  function Slice<T>(s: seq<T>, a: nat, b: nat): (r: seq<T>)
    requires a <= b
    ensures |r| == Min(b, |s|) - Min(a, |s|)
    ensures forall k :: 0 <= k < |r| ==> r[k] == s[a + k]
  {
    s[Min(a, |s|)..Min(b, |s|)]
  }

  /** The token slices `context[prev_end : prev_end + j]`, each starting where the one before ended. */
  function Slices(context: seq<Word>, lengths: seq<nat>): (r: seq<seq<Word>>)
    ensures |r| == |lengths|
  {
    if lengths == [] then []
    else
      var front := lengths[..|lengths| - 1];
      Slices(context, front) + [Slice(context, Sum(front), Sum(front) + lengths[|lengths| - 1])]
  }

  /** `' '.join(...)` of every slice, in order. */
  function JoinEach(ss: seq<seq<Word>>): (r: seq<string>)
    ensures |r| == |ss| && forall k :: 0 <= k < |ss| ==> r[k] == JoinWords(ss[k])
  {
    if ss == [] then [] else JoinEach(ss[..|ss| - 1]) + [JoinWords(ss[|ss| - 1])]
  }

  /** The slices cover the context up to the sum of the lengths (or its end), in order. */
  lemma {:induction false} SlicesConcatenate(context: seq<Word>, lengths: seq<nat>)
    ensures Flatten(Slices(context, lengths)) == context[..Min(Sum(lengths), |context|)]
  {
    if lengths != [] {
      var front := lengths[..|lengths| - 1];
      SlicesConcatenate(context, front);
      var a, b := Sum(front), Sum(lengths);
      assert context[..Min(b, |context|)] == context[..Min(a, |context|)] + Slice(context, a, b);
    }
  }

  /** When the lengths fit in the context, slice k is exactly lengths[k] long. */
  lemma {:induction false} SlicesLengths(context: seq<Word>, lengths: seq<nat>)
    requires Sum(lengths) <= |context|
    ensures forall k :: 0 <= k < |lengths| ==> |Slices(context, lengths)[k]| == lengths[k]
  {
    if lengths != [] {
      var front := lengths[..|lengths| - 1];
      SlicesLengths(context, front);
      assert forall k :: 0 <= k < |front| ==> Slices(context, lengths)[k] == Slices(context, front)[k];
      assert forall k :: 0 <= k < |front| ==> lengths[k] == front[k];
    }
  }

  /**
   * With the lengths recorded by splitMsmarcoDatasets (they add up to the
   * context's length) the slices partition the context: joined back they are
   * the context, and slice k has lengths[k] tokens.
   */
  lemma SlicesPartition(context: seq<Word>, lengths: seq<nat>)
    requires Sum(lengths) == |context|
    ensures Flatten(Slices(context, lengths)) == context
    ensures forall k :: 0 <= k < |lengths| ==> |Slices(context, lengths)[k]| == lengths[k]
  {
    SlicesConcatenate(context, lengths);
    assert context[..|context|] == context;
    SlicesLengths(context, lengths);
  }

  /** The slicing loop of passageRevelevance for one example, with its prev_end cursor. */
  method PassageSlices(context: seq<Word>, lengths: seq<nat>) returns (passages: seq<string>)
    ensures passages == JoinEach(Slices(context, lengths))
  {
    passages := [];
    var prevEnd: nat := 0;
    for j := 0 to |lengths|
      invariant prevEnd == Sum(lengths[..j])
      invariant passages == JoinEach(Slices(context, lengths[..j]))
    {
      assert lengths[..j + 1][..j] == lengths[..j];
      passages := passages + [JoinWords(Slice(context, prevEnd, prevEnd + lengths[j]))];
      prevEnd := prevEnd + lengths[j];
    }
    assert lengths[..|lengths|] == lengths;
  }

  /**
   * passageRevelevance: per example, the score the TF-IDF comparison of the
   * joined question with the joined passage slices gives; `score` stands for
   * TfidfVectorizer, linear_kernel and the softmax.
   */
  method PassageRelevance(contexts: seq<seq<Word>>, questions: seq<seq<Word>>, passageLengths: seq<seq<nat>>,
                          score: (string, seq<string>) -> seq<real>)
    returns (cs: seq<seq<real>>)
    requires |contexts| <= |questions| && |contexts| <= |passageLengths|
    ensures |cs| == |contexts|
    ensures forall i :: 0 <= i < |contexts| ==>
      cs[i] == score(JoinWords(questions[i]), JoinEach(Slices(contexts[i], passageLengths[i])))
  {
    cs := [];
    for i := 0 to |contexts|
      invariant |cs| == i
      invariant forall m :: 0 <= m < i ==>
        cs[m] == score(JoinWords(questions[m]), JoinEach(Slices(contexts[m], passageLengths[m])))
    {
      var passages := PassageSlices(contexts[i], passageLengths[i]);
      cs := cs + [score(JoinWords(questions[i]), passages)];
    }
  }

  /** r repeated n times. */
  function Repeat(r: real, n: nat): (s: seq<real>)
    ensures |s| == n && forall k :: 0 <= k < n ==> s[k] == r
  {
    seq(n, _ => r)
  }

  /** The first n pairs of `zip(rel, lens)`, each score repeated once per token of its passage. */
  function Spread(rel: seq<real>, lens: seq<nat>, n: nat): (w: seq<real>)
    requires n <= |rel| && n <= |lens|
  {
    if n == 0 then [] else Spread(rel, lens, n - 1) + Repeat(rel[n - 1], lens[n - 1])
  }

  /** The weights of one example: the spread scores, padded with 0.0 up to maxLen. */
  function PassWeight(rel: seq<real>, lens: seq<nat>, maxLen: int): seq<real>
  {
    var body := Spread(rel, lens, Min(|rel|, |lens|));
    body + Repeat(0.0, Max(maxLen - |body|, 0))
  }

  lemma {:induction false} SpreadLength(rel: seq<real>, lens: seq<nat>, n: nat)
    requires n <= |rel| && n <= |lens|
    ensures |Spread(rel, lens, n)| == Sum(lens[..n])
  {
    if n > 0 {
      SpreadLength(rel, lens, n - 1);
      assert lens[..n][..n - 1] == lens[..n - 1];
    }
  }

  /** The tokens of passage k occupy [Sum(lens[:k]), Sum(lens[:k+1])) and all carry its score. */
  lemma {:induction false} SpreadAt(rel: seq<real>, lens: seq<nat>, n: nat, k: nat, p: nat)
    requires n <= |rel| && n <= |lens| && k < n
    requires Sum(lens[..k]) <= p < Sum(lens[..k + 1])
    ensures p < |Spread(rel, lens, n)| && Spread(rel, lens, n)[p] == rel[k]
  {
    SpreadLength(rel, lens, n);
    PrefixSumsGrow(lens, k + 1, n);
    if k < n - 1 {
      SpreadAt(rel, lens, n - 1, k, p);
      SpreadLength(rel, lens, n - 1);
    } else {
      SpreadLength(rel, lens, n - 1);
      assert lens[..k + 1][..k] == lens[..k];
    }
  }

  /** Sums of longer prefixes are no smaller. */
  lemma {:induction false} PrefixSumsGrow(lens: seq<nat>, i: nat, j: nat)
    requires i <= j <= |lens|
    ensures Sum(lens[..i]) <= Sum(lens[..j])
    decreases j - i
  {
    if i < j {
      PrefixSumsGrow(lens, i, j - 1);
      assert lens[..j][..j - 1] == lens[..j - 1];
    }
  }

  /** Every position of passage k's tokens, [Sum(lens[:k]), Sum(lens[:k+1])), exists in w and carries rel[k]. */
  predicate CarriesScore(w: seq<real>, rel: seq<real>, lens: seq<nat>, k: nat)
    requires k < |rel| && k < |lens|
  {
    && Sum(lens[..k + 1]) <= |w|
    && forall p :: Sum(lens[..k]) <= p < Sum(lens[..k + 1]) ==> w[p] == rel[k]
  }

  /**
   * passageWeight for one example with one score per passage: the output is
   * max(sum(lens), maxLen) long, the positions of passage k's tokens carry
   * rel[k], and every position after the last token is 0.0.
   */
  lemma PassWeightShape(rel: seq<real>, lens: seq<nat>, maxLen: int)
    requires |rel| == |lens|
    ensures |PassWeight(rel, lens, maxLen)| == Max(Sum(lens), maxLen)
    ensures forall k :: 0 <= k < |lens| ==> CarriesScore(PassWeight(rel, lens, maxLen), rel, lens, k)
    ensures forall p :: Sum(lens) <= p < |PassWeight(rel, lens, maxLen)| ==> PassWeight(rel, lens, maxLen)[p] == 0.0
  {
    SpreadLength(rel, lens, |lens|);
    assert lens[..|lens|] == lens;
    forall k | 0 <= k < |lens| {
      PassWeightCarries(rel, lens, maxLen, k);
    }
  }

  /** One passage of PassWeightShape: its token positions carry its score. */
  lemma PassWeightCarries(rel: seq<real>, lens: seq<nat>, maxLen: int, k: nat)
    requires |rel| == |lens| && k < |lens|
    ensures CarriesScore(PassWeight(rel, lens, maxLen), rel, lens, k)
  {
    var n := |lens|;
    var body := Spread(rel, lens, n);
    var w := PassWeight(rel, lens, maxLen);
    assert w == body + Repeat(0.0, Max(maxLen - |body|, 0));
    SpreadLength(rel, lens, n);
    PrefixSumsGrow(lens, k + 1, n);
    assert lens[..n] == lens;
    forall p | Sum(lens[..k]) <= p < Sum(lens[..k + 1])
      ensures w[p] == rel[k]
    {
      SpreadAt(rel, lens, n, k, p);
    }
  }

  /** The loops of passageWeight for one example: repeat each zipped score, then pad with 0.0. */
  method OneWeight(rel: seq<real>, lens: seq<nat>, maxLen: int) returns (passWeight: seq<real>)
    ensures passWeight == PassWeight(rel, lens, maxLen)
  {
    passWeight := [];
    var n := Min(|rel|, |lens|);
    for j := 0 to n
      invariant passWeight == Spread(rel, lens, j)
    {
      var r, l := rel[j], lens[j];
      for t := 0 to l
        invariant passWeight == Spread(rel, lens, j) + Repeat(r, t)
      {
        passWeight := passWeight + [r];
      }
    }
    var body := passWeight;
    for i := 0 to Max(maxLen - |body|, 0)
      invariant passWeight == body + Repeat(0.0, i)
    {
      passWeight := passWeight + [0.0];
    }
  }

  /** passageWeight: one weight list per example; an example without scores raises IndexError, so there are enough. */
  method PassageWeight(passRel: seq<seq<real>>, passLen: seq<seq<nat>>, maxLen: int) returns (ret: seq<seq<real>>)
    requires |passLen| <= |passRel|
    ensures |ret| == |passLen|
    ensures forall i :: 0 <= i < |passLen| ==> ret[i] == PassWeight(passRel[i], passLen[i], maxLen)
  {
    ret := [];
    for i := 0 to |passLen|
      invariant |ret| == i
      invariant forall m :: 0 <= m < i ==> ret[m] == PassWeight(passRel[m], passLen[m], maxLen)
    {
      var w := OneWeight(passRel[i], passLen[i], maxLen);
      ret := ret + [w];
    }
  }
}
