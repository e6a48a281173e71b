// The parsed MS MARCO records both data classes read, and the quote clean-up
// data.py applies to passage and query text before tokenizing it.

module Msmarco {
  import opened Tokens

  /** One entry of a record's 'passages' list. */
  datatype Passage = Passage(isSelected: int, passageText: string, url: string)

  /** One JSON line of the dataset: 'query', 'query_id', 'answers', 'passages'. */
  datatype Query = Query(query: string, queryId: int, answers: seq<string>, passages: seq<Passage>)

  /**
   * `self.tokenize(text.lower())`: nltk's word tokenizer after lower-casing,
   * with the tokenizer's own quote rewriting; it is not modelled, so every
   * operation that tokenizes takes it as a parameter.
   */
  type Tokenizer = string -> seq<Word>

  /** pat occurs in s at position i. */
  predicate OccursAt(s: string, pat: string, i: nat)
  {
    i + |pat| <= |s| && s[i..i + |pat|] == pat
  }

  /** Python's `s.replace(pat, rep)`: every non-overlapping occurrence, left to right. */
  function ReplaceAll(s: string, pat: string, rep: string): string
    requires |pat| > 0
    decreases |s|
  {
    if |s| < |pat| then s
    else if s[..|pat|] == pat then rep + ReplaceAll(s[|pat|..], pat, rep)
    else [s[0]] + ReplaceAll(s[1..], pat, rep)
  }

  /** Two c's in a row somewhere in s. */
  predicate HasPair(s: string, c: char)
  {
    exists i :: 0 <= i < |s| - 1 && s[i] == c && s[i + 1] == c
  }

  /** What ReplaceAll puts first: the first character of s or of the replacement. */
  lemma {:induction false} ReplaceAllHead(s: string, pat: string, rep: string)
    requires |pat| > 0 && |rep| > 0 && s != []
    ensures ReplaceAll(s, pat, rep) != []
    ensures ReplaceAll(s, pat, rep)[0] == (if OccursAt(s, pat, 0) then rep[0] else s[0])
  {
  }

  lemma ConsNoPair(a: char, t: string, c: char)
    requires !HasPair(t, c)
    requires a == c ==> t == [] || t[0] != c
    ensures !HasPair([a] + t, c)
  {
    var s := [a] + t;
    forall i | 0 <= i < |s| - 1 ensures !(s[i] == c && s[i + 1] == c) {
      if i > 0 { assert s[i] == t[i - 1] && s[i + 1] == t[i]; }
    }
  }

  lemma AppendNoPair(u: string, t: string, c: char)
    requires c !in u && !HasPair(t, c)
    ensures !HasPair(u + t, c)
  {
    var s := u + t;
    forall i | 0 <= i < |s| - 1 ensures !(s[i] == c && s[i + 1] == c) {
      if i >= |u| { assert s[i] == t[i - |u|] && s[i + 1] == t[i + 1 - |u|]; }
      else { assert s[i] == u[i]; }
    }
  }

  /** Replacing "cc" by text without c leaves no "cc" behind. */
  lemma {:induction false} ReplaceAllRemovesPair(s: string, c: char, rep: string)
    requires |rep| > 0 && c !in rep
    ensures !HasPair(ReplaceAll(s, [c, c], rep), c)
    decreases |s|
  {
    var pat := [c, c];
    if |s| >= 2 {
      if s[..2] == pat {
        ReplaceAllRemovesPair(s[2..], c, rep);
        AppendNoPair(rep, ReplaceAll(s[2..], pat, rep), c);
      } else {
        ReplaceAllRemovesPair(s[1..], c, rep);
        ReplaceAllHead(s[1..], pat, rep);
        assert s[0] == c ==> s[1] != c by { assert s[..2] == [s[0], s[1]]; }
        ConsNoPair(s[0], ReplaceAll(s[1..], pat, rep), c);
      }
    }
  }

  /** Replacing a pattern without c by text without c cannot create a "cc". */
  lemma {:induction false} ReplaceAllKeepsNoPair(s: string, pat: string, rep: string, c: char)
    requires |pat| > 0 && |rep| > 0 && c !in rep && c !in pat
    requires !HasPair(s, c)
    ensures !HasPair(ReplaceAll(s, pat, rep), c)
    decreases |s|
  {
    if |s| >= |pat| {
      if s[..|pat|] == pat {
        assert !HasPair(s[|pat|..], c) by {
          forall i | 0 <= i < |s[|pat|..]| - 1 ensures !(s[|pat|..][i] == c && s[|pat|..][i + 1] == c) {
            assert s[|pat|..][i] == s[i + |pat|] && s[|pat|..][i + 1] == s[i + |pat| + 1];
          }
        }
        ReplaceAllKeepsNoPair(s[|pat|..], pat, rep, c);
        AppendNoPair(rep, ReplaceAll(s[|pat|..], pat, rep), c);
      } else {
        assert !HasPair(s[1..], c) by {
          forall i | 0 <= i < |s[1..]| - 1 ensures !(s[1..][i] == c && s[1..][i + 1] == c) {
            assert s[1..][i] == s[i + 1] && s[1..][i + 1] == s[i + 2];
          }
        }
        ReplaceAllKeepsNoPair(s[1..], pat, rep, c);
        if |s| > 1 {
          ReplaceAllHead(s[1..], pat, rep);
          assert s[0] == c ==> s[1] != c;
          assert OccursAt(s[1..], pat, 0) ==> s[1] == pat[0];
        }
        ConsNoPair(s[0], ReplaceAll(s[1..], pat, rep), c);
      }
    }
  }

  /**
   * `text.replace("''", '" ').replace("``", '" ')` as splitMsmarcoDatasets
   * does to passage and query text: afterwards neither two single quotes
   * nor two backquotes stand in a row.
   */
  function FixQuotes(text: string): (r: string)
    ensures !HasPair(r, '\'') && !HasPair(r, '`')
  {
    var once := ReplaceAll(text, "''", "\" ");
    ReplaceAllRemovesPair(text, '\'', "\" ");
    ReplaceAllKeepsNoPair(once, "``", "\" ", '\'');
    ReplaceAllRemovesPair(once, '`', "\" ");
    ReplaceAll(once, "``", "\" ")
  }
}
