// data.py: answer-span alignment (findAnswer) and the two dataset splitters,
// splitMsmarcoDatasets (one example per query, from its first selected
// passage that contains an answer) and splitMsmarcoDatasetsTest (every query,
// with all of its passages).

module SplitSingle {
  import opened Tokens
  import opened Msmarco

  /** An answer span: first token and last token (inclusive) in the context. */
  datatype Span = Span(begin: nat, end: int)

  /**
   * findAnswer of data.py: (i, i + len(answer) - 1) for the leftmost i with
   * context[i:i+len(answer)] == answer, and (None, None) when there is none.
   */
  function FindAnswer(context: seq<Word>, answer: seq<Word>): (r: Option<Span>)
    ensures r.None? <==> forall i :: !MatchesAt(context, answer, i)
    ensures r.Some? ==> MatchesAt(context, answer, r.value.begin)
    ensures r.Some? ==> r.value.end == r.value.begin + |answer| - 1
    ensures r.Some? ==> forall j :: 0 <= j < r.value.begin ==> !MatchesAt(context, answer, j)
  {
    match LeftmostMatch(context, answer)
    case None => None
    case Some(i) => Some(Span(i, i + |answer| - 1))
  }

  /** A non-empty answer span lies inside the context and spells the answer. */
  lemma FindAnswerSpanInside(context: seq<Word>, answer: seq<Word>)
    requires |answer| > 0 && FindAnswer(context, answer).Some?
    ensures var sp := FindAnswer(context, answer).value;
      0 <= sp.begin <= sp.end < |context| && context[sp.begin..sp.end + 1] == answer
  {
  }

  /** One training/validation example: the parallel lists splitMsmarcoDatasets returns, one entry each. */
  datatype Example = Example(
    context: seq<Word>, contextLen: nat,
    question: seq<Word>, questionLen: nat,
    questionId: int, span: Span, answerText: string)

  /** The lists of examples plus the running maxima of context and question length. */
  datatype Split = Split(examples: seq<Example>, maxLenContext: nat, maxLenQuestion: nat)

  /** An answer that found a span: the answer text and where it is. */
  datatype Hit = Hit(span: Span, answerText: string)

  /** The answer tokenizes to something and occurs in the context. */
  predicate Hits(context: seq<Word>, answer: string, tokenize: Tokenizer)
  {
    |tokenize(answer)| > 0 && FindAnswer(context, tokenize(answer)).Some?
  }

  /**
   * The loop over data['answers']: empty answers are skipped, the first one
   * found in the context wins.
   */
  function FirstAnswer(context: seq<Word>, answers: seq<string>, tokenize: Tokenizer): (r: Option<Hit>)
    ensures r.Some? ==> Hits(context, r.value.answerText, tokenize)
    ensures r.Some? ==> r.value.span == FindAnswer(context, tokenize(r.value.answerText)).value
  {
    if answers == [] then None
    else
      var a := tokenize(answers[0]);
      if |a| > 0 && FindAnswer(context, a).Some? then
        Some(Hit(FindAnswer(context, a).value, answers[0]))
      else
        FirstAnswer(context, answers[1..], tokenize)
  }

  /**
   * FirstAnswer finds nothing exactly when no answer hits, and otherwise
   * returns the first answer (in list order) that hits.
   */
  lemma {:induction false} FirstAnswerIsFirstHit(context: seq<Word>, answers: seq<string>, tokenize: Tokenizer)
    ensures FirstAnswer(context, answers, tokenize).None? <==>
      forall k :: 0 <= k < |answers| ==> !Hits(context, answers[k], tokenize)
    ensures FirstAnswer(context, answers, tokenize).Some? ==>
      exists k :: 0 <= k < |answers| && answers[k] == FirstAnswer(context, answers, tokenize).value.answerText &&
        Hits(context, answers[k], tokenize) &&
        forall j :: 0 <= j < k ==> !Hits(context, answers[j], tokenize)
  {
    if answers != [] && !Hits(context, answers[0], tokenize) {
      FirstAnswerIsFirstHit(context, answers[1..], tokenize);
      assert forall k :: 1 <= k < |answers| ==> answers[k] == answers[1..][k - 1];
      var r := FirstAnswer(context, answers[1..], tokenize);
      if r.Some? {
        var k :| 0 <= k < |answers[1..]| && answers[1..][k] == r.value.answerText &&
          Hits(context, answers[1..][k], tokenize) &&
          forall j :: 0 <= j < k ==> !Hits(context, answers[1..][j], tokenize);
        assert answers[k + 1] == r.value.answerText;
      }
    }
  }

  /** `self.tokenize(context.lower())` after the quote clean-up. */
  function PassageContext(p: Passage, tokenize: Tokenizer): seq<Word>
  {
    tokenize(FixQuotes(p.passageText))
  }

  function QuestionTokens(q: Query, tokenize: Tokenizer): seq<Word>
  {
    tokenize(FixQuotes(q.query))
  }

  /** A selected passage of this query in which one of its answers occurs. */
  predicate Answerable(q: Query, p: Passage, tokenize: Tokenizer)
  {
    p.isSelected != 0 && FirstAnswer(PassageContext(p, tokenize), q.answers, tokenize).Some?
  }

  /** The example an answerable passage gives. */
  function ExampleFor(q: Query, p: Passage, tokenize: Tokenizer): Example
    requires Answerable(q, p, tokenize)
  {
    var context := PassageContext(p, tokenize);
    var question := QuestionTokens(q, tokenize);
    var hit := FirstAnswer(context, q.answers, tokenize).value;
    Example(context, |context|, question, |question|, q.queryId, hit.span, hit.answerText)
  }

  /**
   * The passage loop of splitMsmarcoDatasets for one query, from the state s:
   * unselected passages are skipped, each selected one raises the maxima, and
   * the first one with an answer emits an example and ends the loop.
   */
  function ScanPassages(s: Split, q: Query, ps: seq<Passage>, tokenize: Tokenizer): Split
    decreases |ps|
  {
    if ps == [] then s
    else if ps[0].isSelected == 0 then ScanPassages(s, q, ps[1..], tokenize)
    else
      var context := PassageContext(ps[0], tokenize);
      var question := QuestionTokens(q, tokenize);
      var s' := Split(s.examples, Max(s.maxLenContext, |context|), Max(s.maxLenQuestion, |question|));
      match FirstAnswer(context, q.answers, tokenize)
      case Some(hit) =>
        Split(s'.examples + [Example(context, |context|, question, |question|, q.queryId, hit.span, hit.answerText)],
              s'.maxLenContext, s'.maxLenQuestion)
      case None => ScanPassages(s', q, ps[1..], tokenize)
  }

  /** splitMsmarcoDatasets over a list of records. */
  function SplitRecords(records: seq<Query>, tokenize: Tokenizer): Split
  {
    if records == [] then Split([], 0, 0)
    else
      var last := records[|records| - 1];
      ScanPassages(SplitRecords(records[..|records| - 1], tokenize), last, last.passages, tokenize)
  }

  /**
   * What one query contributes: the example of its first answerable passage,
   * and nothing when no selected passage contains an answer.
   */
  function RecordExample(q: Query, ps: seq<Passage>, tokenize: Tokenizer): (r: seq<Example>)
    ensures |r| <= 1
  {
    if ps == [] then []
    else if Answerable(q, ps[0], tokenize) then [ExampleFor(q, ps[0], tokenize)]
    else RecordExample(q, ps[1..], tokenize)
  }

  /**
   * A query contributes nothing exactly when none of its passages is selected
   * and contains an answer.
   */
  lemma {:induction false} RecordExampleEmpty(q: Query, ps: seq<Passage>, tokenize: Tokenizer)
    ensures RecordExample(q, ps, tokenize) == [] <==> forall k :: 0 <= k < |ps| ==> !Answerable(q, ps[k], tokenize)
    decreases |ps|
  {
    if ps != [] && !Answerable(q, ps[0], tokenize) {
      RecordExampleEmpty(q, ps[1..], tokenize);
      assert forall k :: 1 <= k < |ps| ==> ps[k] == ps[1..][k - 1];
    }
  }

  /** The place of the first selected passage that contains an answer, len(ps) when there is none. */
  function FirstAnswerable(q: Query, ps: seq<Passage>, tokenize: Tokenizer): (k: nat)
    ensures k <= |ps|
    ensures k < |ps| ==> Answerable(q, ps[k], tokenize)
    ensures forall j :: 0 <= j < k ==> !Answerable(q, ps[j], tokenize)
    decreases |ps|
  {
    if ps == [] then 0
    else if Answerable(q, ps[0], tokenize) then 0
    else
      var k := FirstAnswerable(q, ps[1..], tokenize);
      assert forall j :: 1 <= j < k + 1 ==> ps[j] == ps[1..][j - 1];
      k + 1
  }

  /** The query contributes the example of its first answerable passage, and nothing without one. */
  lemma {:induction false} RecordExampleFirstAnswerable(q: Query, ps: seq<Passage>, tokenize: Tokenizer)
    ensures var k := FirstAnswerable(q, ps, tokenize);
      RecordExample(q, ps, tokenize) == if k < |ps| then [ExampleFor(q, ps[k], tokenize)] else []
    decreases |ps|
  {
    if ps != [] && !Answerable(q, ps[0], tokenize) {
      RecordExampleFirstAnswerable(q, ps[1..], tokenize);
      var k := FirstAnswerable(q, ps[1..], tokenize);
      if k < |ps[1..]| {
        assert ps[k + 1] == ps[1..][k];
      }
    }
  }

  /** The examples a run of the passage loop emits are exactly RecordExample's. */
  lemma {:induction false} ScanPassagesEmits(s: Split, q: Query, ps: seq<Passage>, tokenize: Tokenizer)
    ensures ScanPassages(s, q, ps, tokenize).examples == s.examples + RecordExample(q, ps, tokenize)
    ensures ScanPassages(s, q, ps, tokenize).maxLenContext >= s.maxLenContext
    ensures ScanPassages(s, q, ps, tokenize).maxLenQuestion >= s.maxLenQuestion
    ensures forall e :: e in RecordExample(q, ps, tokenize) ==>
      e.contextLen <= ScanPassages(s, q, ps, tokenize).maxLenContext
      && e.questionLen <= ScanPassages(s, q, ps, tokenize).maxLenQuestion
    decreases |ps|
  {
    if ps != [] {
      if ps[0].isSelected == 0 {
        ScanPassagesEmits(s, q, ps[1..], tokenize);
      } else {
        var context := PassageContext(ps[0], tokenize);
        var question := QuestionTokens(q, tokenize);
        var s' := Split(s.examples, Max(s.maxLenContext, |context|), Max(s.maxLenQuestion, |question|));
        if FirstAnswer(context, q.answers, tokenize).None? {
          ScanPassagesEmits(s', q, ps[1..], tokenize);
        }
      }
    }
  }

  /** Each query adds at most one example, in query order: the examples are the records' contributions concatenated. */
  function AllRecordExamples(records: seq<Query>, tokenize: Tokenizer): (r: seq<Example>)
    ensures |r| <= |records|
  {
    if records == [] then []
    else
      var last := records[|records| - 1];
      AllRecordExamples(records[..|records| - 1], tokenize) + RecordExample(last, last.passages, tokenize)
  }

  /** A well-formed example: a non-empty answer's span inside the context, lengths within the maxima. */
  predicate WellFormed(e: Example, maxLenContext: nat, maxLenQuestion: nat, tokenize: Tokenizer)
  {
    && 0 <= e.span.begin <= e.span.end < |e.context|
    && e.context[e.span.begin..e.span.end + 1] == tokenize(e.answerText)
    && e.contextLen == |e.context| <= maxLenContext
    && e.questionLen == |e.question| <= maxLenQuestion
  }

  lemma ExampleForWellFormed(q: Query, p: Passage, tokenize: Tokenizer)
    requires Answerable(q, p, tokenize)
    ensures var e := ExampleFor(q, p, tokenize);
      WellFormed(e, e.contextLen, e.questionLen, tokenize)
  {
    var context := PassageContext(p, tokenize);
    var hit := FirstAnswer(context, q.answers, tokenize).value;
    FindAnswerSpanInside(context, tokenize(hit.answerText));
  }

  /**
   * splitMsmarcoDatasets emits, in query order, exactly the example of each
   * query that has an answerable selected passage, from the first such passage.
   */
  lemma {:induction false} SplitRecordsExamples(records: seq<Query>, tokenize: Tokenizer)
    ensures SplitRecords(records, tokenize).examples == AllRecordExamples(records, tokenize)
  {
    if records != [] {
      var front := records[..|records| - 1];
      var last := records[|records| - 1];
      SplitRecordsExamples(front, tokenize);
      ScanPassagesEmits(SplitRecords(front, tokenize), last, last.passages, tokenize);
    }
  }

  /** The example a query contributes is well formed against its own lengths. */
  lemma RecordExampleWellFormed(q: Query, ps: seq<Passage>, tokenize: Tokenizer)
    ensures forall e :: e in RecordExample(q, ps, tokenize) ==> WellFormed(e, e.contextLen, e.questionLen, tokenize)
  {
    RecordExampleFirstAnswerable(q, ps, tokenize);
    var k := FirstAnswerable(q, ps, tokenize);
    if k < |ps| {
      ExampleForWellFormed(q, ps[k], tokenize);
    }
  }

  /** One run of the passage loop keeps every example well formed against the raised maxima. */
  lemma ScanPassagesWellFormed(s: Split, q: Query, ps: seq<Passage>, tokenize: Tokenizer)
    requires forall e :: e in s.examples ==> WellFormed(e, s.maxLenContext, s.maxLenQuestion, tokenize)
    ensures var s2 := ScanPassages(s, q, ps, tokenize);
      forall e :: e in s2.examples ==> WellFormed(e, s2.maxLenContext, s2.maxLenQuestion, tokenize)
  {
    ScanPassagesEmits(s, q, ps, tokenize);
    RecordExampleWellFormed(q, ps, tokenize);
  }

  /** Every example splitMsmarcoDatasets emits is well formed against the final maxima. */
  lemma {:induction false} SplitRecordsWellFormed(records: seq<Query>, tokenize: Tokenizer)
    ensures forall e :: e in SplitRecords(records, tokenize).examples ==>
      WellFormed(e, SplitRecords(records, tokenize).maxLenContext, SplitRecords(records, tokenize).maxLenQuestion, tokenize)
  {
    if records != [] {
      var front := records[..|records| - 1];
      var last := records[|records| - 1];
      SplitRecordsWellFormed(front, tokenize);
      ScanPassagesWellFormed(SplitRecords(front, tokenize), last, last.passages, tokenize);
      assert SplitRecords(records, tokenize) == ScanPassages(SplitRecords(front, tokenize), last, last.passages, tokenize);
    }
  }

  method SplitMsmarcoDatasets(records: seq<Query>, tokenize: Tokenizer)
    returns (examples: seq<Example>, maxLenContext: nat, maxLenQuestion: nat)
    ensures Split(examples, maxLenContext, maxLenQuestion) == SplitRecords(records, tokenize)
  {
    examples, maxLenContext, maxLenQuestion := [], 0, 0;
    for r := 0 to |records|
      invariant Split(examples, maxLenContext, maxLenQuestion) == SplitRecords(records[..r], tokenize)
    {
      var data := records[r];
      assert records[..r + 1][..r] == records[..r];
      ghost var goal := ScanPassages(Split(examples, maxLenContext, maxLenQuestion), data, data.passages, tokenize);
      var p := 0;
      while p < |data.passages|
        invariant p <= |data.passages|
        invariant ScanPassages(Split(examples, maxLenContext, maxLenQuestion), data, data.passages[p..], tokenize) == goal
      {
        var passage := data.passages[p];
        assert data.passages[p..][1..] == data.passages[p + 1..];
        if passage.isSelected == 0 {
          p := p + 1;
          continue;
        }
        var context := tokenize(FixQuotes(passage.passageText));
        if |context| > maxLenContext {
          maxLenContext := |context|;
        }
        var question := tokenize(FixQuotes(data.query));
        if |question| > maxLenQuestion {
          maxLenQuestion := |question|;
        }
        var questionId := data.queryId;
        var answerFound := false;
        var a := 0;
        while a < |data.answers|
          invariant a <= |data.answers|
          invariant FirstAnswer(context, data.answers[a..], tokenize) == FirstAnswer(context, data.answers, tokenize)
        {
          var answer := data.answers[a];
          assert data.answers[a..][1..] == data.answers[a + 1..];
          var answerTokenized := tokenize(answer);
          if |answerTokenized| == 0 {
            a := a + 1;
            continue;
          }
          var found := FindAnswer(context, answerTokenized);
          if found.Some? {
            examples := examples + [Example(context, |context|, question, |question|, questionId, found.value, answer)];
            answerFound := true;
            break;
          }
          a := a + 1;
        }
        if answerFound {
          break;
        }
        p := p + 1;
      }
    }
    assert records[..|records|] == records;
  }

  /** One query as splitMsmarcoDatasetsTest records it: every passage, tokenized without the quote clean-up. */
  datatype MultiRecord = MultiRecord(
    passages: seq<seq<Word>>, passageLens: seq<nat>, urls: seq<string>,
    question: seq<Word>, questionLen: nat, questionId: int)

  /** Every passage text tokenized, in order. */
  function TokenizeAll(ps: seq<Passage>, tokenize: Tokenizer): (r: seq<seq<Word>>)
    ensures |r| == |ps| && forall k :: 0 <= k < |ps| ==> r[k] == tokenize(ps[k].passageText)
  {
    if ps == [] then [] else TokenizeAll(ps[..|ps| - 1], tokenize) + [tokenize(ps[|ps| - 1].passageText)]
  }

  /** Every passage url, in order. */
  function Urls(ps: seq<Passage>): (r: seq<string>)
    ensures |r| == |ps| && forall k :: 0 <= k < |ps| ==> r[k] == ps[k].url
  {
    if ps == [] then [] else Urls(ps[..|ps| - 1]) + [ps[|ps| - 1].url]
  }

  function TestRecord(q: Query, tokenize: Tokenizer): MultiRecord
  {
    var ps := TokenizeAll(q.passages, tokenize);
    MultiRecord(ps, Lengths(ps), Urls(q.passages), tokenize(q.query), |tokenize(q.query)|, q.queryId)
  }

  /** One record per query, in query order: the list splitMsmarcoDatasetsTest returns. */
  function TestRecords(records: seq<Query>, tokenize: Tokenizer): (r: seq<MultiRecord>)
    ensures |r| == |records|
  {
    if records == [] then []
    else TestRecords(records[..|records| - 1], tokenize) + [TestRecord(records[|records| - 1], tokenize)]
  }

  /** Record i of TestRecords is the record of query i. */
  lemma {:induction false} TestRecordAt(records: seq<Query>, i: nat, tokenize: Tokenizer)
    requires i < |records|
    ensures TestRecords(records, tokenize)[i] == TestRecord(records[i], tokenize)
  {
    if i < |records| - 1 {
      TestRecordAt(records[..|records| - 1], i, tokenize);
    }
  }

  /** Every record of TestRecords is the record of its query. */
  lemma TestRecordsAt(records: seq<Query>, tokenize: Tokenizer)
    ensures forall i :: 0 <= i < |records| ==> TestRecords(records, tokenize)[i] == TestRecord(records[i], tokenize)
  {
    forall i | 0 <= i < |records| ensures TestRecords(records, tokenize)[i] == TestRecord(records[i], tokenize) {
      TestRecordAt(records, i, tokenize);
    }
  }

  /** The length of the longest token list (0 for none). */
  function Longest(ps: seq<seq<Word>>): (m: nat)
    ensures forall k :: 0 <= k < |ps| ==> |ps[k]| <= m
  {
    if ps == [] then 0
    else
      var m := Longest(ps[..|ps| - 1]);
      assert forall k :: 0 <= k < |ps| - 1 ==> ps[..|ps| - 1][k] == ps[k];
      Max(m, |ps[|ps| - 1]|)
  }

  /** The longest length is attained by some list (or there is none longer than 0). */
  lemma {:induction false} LongestAttained(ps: seq<seq<Word>>)
    ensures Longest(ps) == 0 || exists k :: 0 <= k < |ps| && |ps[k]| == Longest(ps)
  {
    if ps != [] {
      var front := ps[..|ps| - 1];
      LongestAttained(front);
      if Longest(ps) != |ps[|ps| - 1]| && Longest(ps) != 0 {
        var k :| 0 <= k < |front| && |front[k]| == Longest(front);
        assert ps[k] == front[k];
      }
    }
  }

  /** Appending a list raises the longest length to that list's length at most. */
  lemma LongestSnoc(ps: seq<seq<Word>>, x: seq<Word>)
    ensures Longest(ps + [x]) == Max(Longest(ps), |x|)
  {
    assert (ps + [x])[..|ps|] == ps;
  }

  /** Running maxima of splitMsmarcoDatasetsTest over the records read so far. */
  function TestMaxima(records: seq<Query>, tokenize: Tokenizer): (nat, nat)
  {
    if records == [] then (0, 0)
    else
      var m := TestMaxima(records[..|records| - 1], tokenize);
      var r := TestRecord(records[|records| - 1], tokenize);
      (Max(m.0, Longest(r.passages)), Max(m.1, |r.question|))
  }

  /** One more record raises the maxima to its longest passage and its question length. */
  lemma TestMaximaStep(records: seq<Query>, r: nat, tokenize: Tokenizer)
    requires r < |records|
    ensures TestMaxima(records[..r + 1], tokenize) ==
      (Max(TestMaxima(records[..r], tokenize).0, Longest(TestRecord(records[r], tokenize).passages)),
       Max(TestMaxima(records[..r], tokenize).1, |TestRecord(records[r], tokenize).question|))
  {
    assert records[..r + 1][..r] == records[..r];
  }

  /** The maxima bound every passage and every question of every record. */
  lemma {:induction false} TestMaximaBound(records: seq<Query>, tokenize: Tokenizer)
    ensures forall i, k :: 0 <= i < |records| && 0 <= k < |TestRecord(records[i], tokenize).passages| ==>
      |TestRecord(records[i], tokenize).passages[k]| <= TestMaxima(records, tokenize).0
    ensures forall i :: 0 <= i < |records| ==> |TestRecord(records[i], tokenize).question| <= TestMaxima(records, tokenize).1
  {
    TestMaximaRecords(records, tokenize);
    forall i, k | 0 <= i < |records| && 0 <= k < |TestRecord(records[i], tokenize).passages|
      ensures |TestRecord(records[i], tokenize).passages[k]| <= TestMaxima(records, tokenize).0
    {
      var ps := TestRecord(records[i], tokenize).passages;
      assert |ps[k]| <= Longest(ps);
    }
  }

  /** The maxima bound the longest passage and the question of every record. */
  lemma {:induction false} TestMaximaRecords(records: seq<Query>, tokenize: Tokenizer)
    ensures forall i :: 0 <= i < |records| ==>
      && Longest(TestRecord(records[i], tokenize).passages) <= TestMaxima(records, tokenize).0
      && |TestRecord(records[i], tokenize).question| <= TestMaxima(records, tokenize).1
  {
    if records != [] {
      var front := records[..|records| - 1];
      TestMaximaRecords(front, tokenize);
      var m, m' := TestMaxima(front, tokenize), TestMaxima(records, tokenize);
      assert m'.0 >= m.0 && m'.1 >= m.1;
      forall i | 0 <= i < |records|
        ensures Longest(TestRecord(records[i], tokenize).passages) <= m'.0
        ensures |TestRecord(records[i], tokenize).question| <= m'.1
      {
        if i < |front| {
          assert records[i] == front[i];
        }
      }
    }
  }

  /** What one more turn of the passage loop adds to each of the lists it builds. */
  lemma PassageStep(ps: seq<Passage>, p: nat, passages: seq<seq<Word>>, tokenize: Tokenizer)
    requires p < |ps| && passages == TokenizeAll(ps[..p], tokenize)
    ensures TokenizeAll(ps[..p + 1], tokenize) == passages + [tokenize(ps[p].passageText)]
    ensures Urls(ps[..p + 1]) == Urls(ps[..p]) + [ps[p].url]
    ensures Lengths(passages + [tokenize(ps[p].passageText)]) == Lengths(passages) + [|tokenize(ps[p].passageText)|]
    ensures Longest(passages + [tokenize(ps[p].passageText)]) == Max(Longest(passages), |tokenize(ps[p].passageText)|)
  {
    var x := tokenize(ps[p].passageText);
    assert ps[..p + 1][..p] == ps[..p];
    assert (passages + [x])[..p] == passages;
    LongestSnoc(passages, x);
  }

  /**
   * The passage loop of splitMsmarcoDatasetsTest for one query: tokenizes
   * every passage, records its length and url, and raises the running
   * context maximum.
   */
  method ReadPassages(q: Query, tokenize: Tokenizer, m0: nat)
    returns (passages: seq<seq<Word>>, lens: seq<nat>, urls: seq<string>, maxLenContext: nat)
    ensures passages == TokenizeAll(q.passages, tokenize)
    ensures lens == Lengths(passages)
    ensures urls == Urls(q.passages)
    ensures maxLenContext == Max(m0, Longest(passages))
  {
    passages, lens, urls, maxLenContext := [], [], [], m0;
    for p := 0 to |q.passages|
      invariant passages == TokenizeAll(q.passages[..p], tokenize)
      invariant lens == Lengths(passages)
      invariant urls == Urls(q.passages[..p])
      invariant maxLenContext == Max(m0, Longest(passages))
    {
      var contextTokenized := tokenize(q.passages[p].passageText);
      PassageStep(q.passages, p, passages, tokenize);
      passages := passages + [contextTokenized];
      lens := lens + [|contextTokenized|];
      urls := urls + [q.passages[p].url];
      if |contextTokenized| > maxLenContext {
        maxLenContext := |contextTokenized|;
      }
    }
    assert q.passages[..|q.passages|] == q.passages;
  }

  /** One more query appends its record. */
  lemma TestRecordsSnoc(records: seq<Query>, r: nat, tokenize: Tokenizer)
    requires r < |records|
    ensures TestRecords(records[..r + 1], tokenize) == TestRecords(records[..r], tokenize) + [TestRecord(records[r], tokenize)]
  {
    assert records[..r + 1][..r] == records[..r];
  }

  /** The body of the record loop of splitMsmarcoDatasetsTest: one query's entry and the raised maxima. */
  method ReadRecord(data: Query, tokenize: Tokenizer, maxC: nat, maxQ: nat) returns (rec: MultiRecord, maxC': nat, maxQ': nat)
    ensures rec == TestRecord(data, tokenize)
    ensures maxC' == Max(maxC, Longest(rec.passages)) && maxQ' == Max(maxQ, |rec.question|)
  {
    var passages, lens, urls;
    passages, lens, urls, maxC' := ReadPassages(data, tokenize, maxC);
    var question := tokenize(data.query);
    maxQ' := maxQ;
    if |question| > maxQ' {
      maxQ' := |question|;
    }
    rec := MultiRecord(passages, lens, urls, question, |question|, data.queryId);
  }

  /** splitMsmarcoDatasetsTest: one entry per query, every passage with its length and url. */
  method SplitMsmarcoDatasetsTest(records: seq<Query>, tokenize: Tokenizer)
    returns (out: seq<MultiRecord>, maxLenContext: nat, maxLenQuestion: nat)
    ensures out == TestRecords(records, tokenize)
    ensures forall i :: 0 <= i < |records| ==> out[i] == TestRecord(records[i], tokenize)
    ensures maxLenContext == TestMaxima(records, tokenize).0 && maxLenQuestion == TestMaxima(records, tokenize).1
  {
    out, maxLenContext, maxLenQuestion := [], 0, 0;
    for r := 0 to |records|
      invariant out == TestRecords(records[..r], tokenize)
      invariant maxLenContext == TestMaxima(records[..r], tokenize).0
      invariant maxLenQuestion == TestMaxima(records[..r], tokenize).1
    {
      var rec;
      rec, maxLenContext, maxLenQuestion := ReadRecord(records[r], tokenize, maxLenContext, maxLenQuestion);
      TestMaximaStep(records, r, tokenize);
      TestRecordsSnoc(records, r, tokenize);
      out := out + [rec];
    }
    assert records[..|records|] == records;
    TestRecordsAt(records, tokenize);
  }
}
