// buildVocab: the sorted, de-duplicated list of every word of a list of
// tokenized sentences (`sorted(set(word for words in sentences for word in words))`).

module Vocabulary {
  import opened Tokens

  /** Python's `<` on str: code point by code point, a proper prefix first. */
  predicate Less(a: Word, b: Word)
    decreases |a|
  {
    |b| > 0 && (|a| == 0 || a[0] < b[0] || (a[0] == b[0] && Less(a[1..], b[1..])))
  }

  lemma {:induction false} LessIrreflexive(a: Word)
    ensures !Less(a, a)
    decreases |a|
  {
    if |a| > 0 {
      LessIrreflexive(a[1..]);
    }
  }

  lemma {:induction false} LessTransitive(a: Word, b: Word, c: Word)
    requires Less(a, b) && Less(b, c)
    ensures Less(a, c)
    decreases |a|
  {
    if |a| > 0 && a[0] == b[0] && b[0] == c[0] {
      LessTransitive(a[1..], b[1..], c[1..]);
    }
  }

  lemma {:induction false} LessTotal(a: Word, b: Word)
    requires a != b
    ensures Less(a, b) || Less(b, a)
    decreases |a|
  {
    if |a| > 0 && |b| > 0 && a[0] == b[0] {
      assert a == [a[0]] + a[1..] && b == [b[0]] + b[1..];
      LessTotal(a[1..], b[1..]);
    }
  }

  lemma {:induction false} LessAsymmetric(a: Word, b: Word)
    ensures !(Less(a, b) && Less(b, a))
  {
    if Less(a, b) && Less(b, a) {
      LessTransitive(a, b, a);
      LessIrreflexive(a);
    }
  }

  /** Ascending without repetition: the order `sorted` gives a set. */
  predicate StrictlySorted(s: seq<Word>)
  {
    forall i, j :: 0 <= i < j < |s| ==> Less(s[i], s[j])
  }

  /** The word occurs in one of the sentences. */
  predicate OccursIn(w: Word, sentences: seq<seq<Word>>)
  {
    exists i :: 0 <= i < |sentences| && w in sentences[i]
  }

  /** Adds one word to a strictly sorted list, keeping it strictly sorted. */
  function Insert(s: seq<Word>, w: Word): (r: seq<Word>)
    requires StrictlySorted(s)
    ensures StrictlySorted(r)
    ensures forall x :: x in r <==> x in s || x == w
  {
    if s == [] then [w]
    else if w == s[0] then s
    else if Less(w, s[0]) then
      assert forall k :: 0 < k < |s| ==> Less(s[0], s[k]);
      forall k | 0 < k < |s| ensures Less(w, s[k]) { LessTransitive(w, s[0], s[k]); }
      [w] + s
    else
      LessTotal(w, s[0]);
      var t := Insert(s[1..], w);
      forall x | x in t ensures Less(s[0], x) {
        if x != w {
          var k :| 0 <= k < |s[1..]| && s[1..][k] == x;
          assert s[k + 1] == x;
        }
      }
      [s[0]] + t
  }

  /** Adds every word of one sentence. */
  function InsertAll(s: seq<Word>, words: seq<Word>): (r: seq<Word>)
    requires StrictlySorted(s)
    ensures StrictlySorted(r)
    ensures forall x :: x in r <==> x in s || x in words
  {
    if words == [] then s
    else
      var t := InsertAll(s, words[..|words| - 1]);
      assert forall x :: x in words <==> x in words[..|words| - 1] || x == words[|words| - 1];
      Insert(t, words[|words| - 1])
  }

  /**
   * buildVocab: exactly the words of the sentences, ascending, each once.
   * Any other list with these two properties is this one (see SortedSetUnique).
   */
  function BuildVocab(sentences: seq<seq<Word>>): (vocab: seq<Word>)
    ensures StrictlySorted(vocab)
    ensures forall w :: w in vocab <==> OccursIn(w, sentences)
  {
    if sentences == [] then []
    else
      var front := sentences[..|sentences| - 1];
      var v := BuildVocab(front);
      var r := InsertAll(v, sentences[|sentences| - 1]);
      assert forall w :: OccursIn(w, sentences) <==> OccursIn(w, front) || w in sentences[|sentences| - 1] by {
        forall w | OccursIn(w, sentences) ensures OccursIn(w, front) || w in sentences[|sentences| - 1] {
          var i :| 0 <= i < |sentences| && w in sentences[i];
          if i < |sentences| - 1 { assert front[i] == sentences[i]; }
        }
        forall w | OccursIn(w, front) ensures OccursIn(w, sentences) {
          var i :| 0 <= i < |front| && w in front[i];
          assert sentences[i] == front[i];
        }
      }
      r
  }

  /** A strictly sorted list has no repeated word. */
  lemma StrictlySortedDistinct(s: seq<Word>)
    requires StrictlySorted(s)
    ensures forall i, j :: 0 <= i < |s| && 0 <= j < |s| && i != j ==> s[i] != s[j]
  {
    forall i, j | 0 <= i < |s| && 0 <= j < |s| && i != j ensures s[i] != s[j] {
      if i < j { LessIrreflexive(s[i]); } else { LessIrreflexive(s[j]); }
    }
  }

  lemma HeadIsLeast(s: seq<Word>)
    requires StrictlySorted(s) && s != []
    ensures forall x :: x in s ==> x == s[0] || Less(s[0], x)
  {
    forall x | x in s ensures x == s[0] || Less(s[0], x) {
      var k :| 0 <= k < |s| && s[k] == x;
    }
  }

  /**
   * `sorted(set(...))` is determined by the set: two strictly sorted lists
   * holding the same words are the same list.
   */
  lemma {:induction false} SortedSetUnique(a: seq<Word>, b: seq<Word>)
    requires StrictlySorted(a) && StrictlySorted(b)
    requires forall x :: x in a <==> x in b
    ensures a == b
    decreases |a|
  {
    if a != [] { assert a[0] in b; }
    if b != [] { assert b[0] in a; }
    if a != [] && b != [] {
      HeadIsLeast(a);
      HeadIsLeast(b);
      assert a[0] in b && b[0] in a;
      LessAsymmetric(a[0], b[0]);
      assert a[0] == b[0];
      StrictlySortedDistinct(a);
      StrictlySortedDistinct(b);
      forall x ensures x in a[1..] <==> x in b[1..] {
        if x in a[1..] {
          var k :| 0 <= k < |a[1..]| && a[1..][k] == x;
          assert a[k + 1] == x && x != a[0] && x in b;
          var m :| 0 <= m < |b| && b[m] == x;
          assert m > 0 && b[1..][m - 1] == x;
        }
        if x in b[1..] {
          var k :| 0 <= k < |b[1..]| && b[1..][k] == x;
          assert b[k + 1] == x && x != b[0] && x in a;
          var m :| 0 <= m < |a| && a[m] == x;
          assert m > 0 && a[1..][m - 1] == x;
        }
      }
      SortedSetUnique(a[1..], b[1..]);
      assert a == [a[0]] + a[1..] && b == [b[0]] + b[1..];
    }
  }
}
