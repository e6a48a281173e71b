// join: re-assembles a token list into text, gluing each punctuation token
// '.', ',', ';', '?' or '!' to the word before it and separating the other
// words by one space.

module Detokenize {
  import opened Tokens

  /** `nxt in set('.,;?!')`: the token is exactly one of those five characters. */
  predicate IsPunctuation(t: Word)
  {
    |t| == 1 && t[0] in ".,;?!"
  }

  /**
   * The generator join_punctuation after it has read `current`: every further
   * punctuation token is appended to the current word, every other token
   * yields the current word and becomes the new current one.
   */
  function Glue(current: Word, rest: seq<Word>): (words: seq<Word>)
    decreases |rest|
    ensures words != []
  {
    if rest == [] then [current]
    else if IsPunctuation(rest[0]) then Glue(current + rest[0], rest[1..])
    else [current] + Glue(rest[0], rest[1..])
  }

  /** `' '.join(words)`. */
  function JoinWords(words: seq<Word>): string
  {
    if words == [] then ""
    else if |words| == 1 then words[0]
    else words[0] + " " + JoinWords(words[1..])
  }

  /**
   * join(sent). The first `next()` of the generator raises on an empty list
   * (a RuntimeError once it leaves the generator); that is None here.
   */
  function Join(sent: seq<Word>): (r: Option<string>)
    ensures r.None? <==> sent == []
  {
    if sent == [] then None else Some(JoinWords(Glue(sent[0], sent[1..])))
  }

  /** Concatenation of all the characters of a list of words. */
  function Chars(words: seq<Word>): string
  {
    if words == [] then "" else words[0] + Chars(words[1..])
  }

  /** Number of tokens that start a new word. */
  function CountWordStarts(tokens: seq<Word>): nat
  {
    if tokens == [] then 0
    else (if IsPunctuation(tokens[0]) then 0 else 1) + CountWordStarts(tokens[1..])
  }

  /** Gluing neither loses nor adds a character: the words spell the tokens. */
  lemma {:induction false} GlueKeepsCharacters(current: Word, rest: seq<Word>)
    ensures Chars(Glue(current, rest)) == current + Chars(rest)
    decreases |rest|
  {
    if rest != [] {
      GlueKeepsCharacters(if IsPunctuation(rest[0]) then current + rest[0] else rest[0], rest[1..]);
    }
  }

  /** One word for the first token and one for every later non-punctuation token. */
  lemma {:induction false} GlueWordCount(current: Word, rest: seq<Word>)
    ensures |Glue(current, rest)| == 1 + CountWordStarts(rest)
    decreases |rest|
  {
    if rest != [] {
      GlueWordCount(if IsPunctuation(rest[0]) then current + rest[0] else rest[0], rest[1..]);
    }
  }

  /** `s.split(' ')`. */
  function SplitOnSpace(s: string): seq<string>
  {
    if ' ' !in s then [s]
    else
      var i := FirstSpace(s);
      [s[..i]] + SplitOnSpace(s[i + 1..])
  }

  function FirstSpace(s: string): (i: nat)
    requires ' ' in s
    ensures i < |s| && s[i] == ' ' && ' ' !in s[..i]
  {
    if s[0] == ' ' then 0 else
      assert s == [s[0]] + s[1..];
      1 + FirstSpace(s[1..])
  }

  /** The first space of `w + " " + rest` is the one after w when w holds none. */
  lemma FirstSpaceAfterWord(w: Word, rest: string)
    requires ' ' !in w
    ensures ' ' in w + " " + rest
    ensures FirstSpace(w + " " + rest) == |w|
  {
    var s := w + " " + rest;
    assert s[|w|] == ' ';
    var i := FirstSpace(s);
    assert forall j :: 0 <= j < |w| ==> s[j] == w[j] && w[j] in w;
  }

  /** Splitting the joined text on spaces gives back the words when none holds a space. */
  lemma {:induction false} SplitJoinWords(words: seq<Word>)
    requires words != []
    requires forall w :: w in words ==> ' ' !in w
    ensures SplitOnSpace(JoinWords(words)) == words
  {
    if |words| > 1 {
      var rest := JoinWords(words[1..]);
      assert words[0] in words;
      FirstSpaceAfterWord(words[0], rest);
      var s := words[0] + " " + rest;
      assert s[..|words[0]|] == words[0];
      assert s[|words[0]| + 1..] == rest;
      assert forall w :: w in words[1..] ==> w in words;
      SplitJoinWords(words[1..]);
    }
  }

  /**
   * join followed by `split(' ')` gives the glued words back when no token holds
   * a space: the text loses only the boundaries before punctuation tokens.
   */
  lemma JoinSplitRoundTrip(sent: seq<Word>)
    requires sent != []
    requires forall t :: t in sent ==> ' ' !in t
    ensures Join(sent).Some?
    ensures SplitOnSpace(Join(sent).value) == Glue(sent[0], sent[1..])
  {
    GlueNoSpace(sent[0], sent[1..]);
    SplitJoinWords(Glue(sent[0], sent[1..]));
  }

  lemma {:induction false} GlueNoSpace(current: Word, rest: seq<Word>)
    requires ' ' !in current
    requires forall t :: t in rest ==> ' ' !in t
    ensures forall w :: w in Glue(current, rest) ==> ' ' !in w
    decreases |rest|
  {
    if rest != [] {
      assert rest[0] in rest;
      assert forall t :: t in rest[1..] ==> t in rest;
      if IsPunctuation(rest[0]) {
        GlueNoSpace(current + rest[0], rest[1..]);
      } else {
        GlueNoSpace(rest[0], rest[1..]);
      }
    }
  }
}
