// Token sequences, the shared vocabulary of both data-preparation classes,
// and the answer-span search that both versions of findAnswer run.

module Tokens {

  /** A token as produced by the tokenizer (a Python str). */
  type Word = string

  datatype Option<+T> = None | Some(value: T)

  function Max(a: int, b: int): int
  {
    if a >= b then a else b
  }

  function Min(a: int, b: int): int
  {
    if a <= b then a else b
  }

  /** Sum of a list of lengths. */
  function Sum(s: seq<nat>): nat
  {
    if s == [] then 0 else Sum(s[..|s| - 1]) + s[|s| - 1]
  }

  /** Concatenation of a list of token lists (Python `passages += tokens` repeated). */
  function Flatten<T>(ss: seq<seq<T>>): seq<T>
  {
    if ss == [] then [] else Flatten(ss[..|ss| - 1]) + ss[|ss| - 1]
  }

  /** The lengths of a list of token lists, in order. */
  function Lengths<T>(ss: seq<seq<T>>): (r: seq<nat>)
    ensures |r| == |ss| && forall k :: 0 <= k < |ss| ==> r[k] == |ss[k]|
  {
    if ss == [] then [] else Lengths(ss[..|ss| - 1]) + [|ss[|ss| - 1]|]
  }

  lemma {:induction false} FlattenLength<T>(ss: seq<seq<T>>)
    ensures |Flatten(ss)| == Sum(Lengths(ss))
  {
    if ss != [] {
      FlattenLength(ss[..|ss| - 1]);
      assert Lengths(ss)[..|ss| - 1] == Lengths(ss[..|ss| - 1]);
    }
  }

  /** The answer occurs in the context starting at position i. */
  predicate MatchesAt(context: seq<Word>, answer: seq<Word>, i: nat)
  {
    i + |answer| <= |context| && context[i..i + |answer|] == answer
  }

  /** The number of aligned equal pairs of two lists, as `sum([1 for j, m in zip(xs, ys) if j == m])`. */
  function Agreements(xs: seq<Word>, ys: seq<Word>): (r: nat)
    ensures r <= |xs| && r <= |ys|
  {
    if xs == [] || ys == [] then 0
    else (if xs[0] == ys[0] then 1 else 0) + Agreements(xs[1..], ys[1..])
  }

  /** Counting agreements is exact matching when the two lists have the same length. */
  lemma {:induction false} AgreementsFullIffEqual(xs: seq<Word>, ys: seq<Word>)
    requires |xs| == |ys|
    ensures Agreements(xs, ys) == |ys| <==> xs == ys
  {
    if xs != [] {
      AgreementsFullIffEqual(xs[1..], ys[1..]);
      if xs[0] == ys[0] && xs[1..] == ys[1..] {
        assert xs == [xs[0]] + xs[1..] && ys == [ys[0]] + ys[1..];
      }
    }
  }

  /**
   * The scan `for i in range(len(context) - len(answer) + 1)` of findAnswer,
   * from position i on: the first position whose window agrees with the answer
   * on every token.
   */
  function LeftmostMatchFrom(context: seq<Word>, answer: seq<Word>, i: nat): (r: Option<nat>)
    decreases |context| - i
    ensures r.Some? ==> i <= r.value && MatchesAt(context, answer, r.value)
    ensures r.Some? ==> forall j :: i <= j < r.value ==> !MatchesAt(context, answer, j)
    ensures r.None? ==> forall j :: i <= j ==> !MatchesAt(context, answer, j)
  {
    if i + |answer| > |context| then None
    else
      AgreementsFullIffEqual(context[i..i + |answer|], answer);
      if Agreements(context[i..i + |answer|], answer) == |answer| then Some(i)
      else LeftmostMatchFrom(context, answer, i + 1)
  }

  /** The smallest i with context[i:i+len(answer)] == answer, if any. */
  function LeftmostMatch(context: seq<Word>, answer: seq<Word>): (r: Option<nat>)
    ensures r.Some? <==> exists i :: MatchesAt(context, answer, i)
    ensures r.Some? ==> MatchesAt(context, answer, r.value)
    ensures r.Some? ==> forall j :: 0 <= j < r.value ==> !MatchesAt(context, answer, j)
  {
    LeftmostMatchFrom(context, answer, 0)
  }
}
