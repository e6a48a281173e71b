// data_multi.py: answer-span alignment with its own end convention and the
// dataset splitter that concatenates all passages of a query into one
// context, remembering each passage's length, and keeps the query when one
// of its answers occurs anywhere in that context.

module SplitMulti {
  import opened Tokens
  import opened Msmarco
  import SplitSingle

  /**
   * findAnswer of data_multi.py: (i, i + len(answer) + 1) for the leftmost i
   * with context[i:i+len(answer)] == answer, and (-1, -1) when there is none.
   * An empty answer matches at 0.
   */
  function FindAnswerMulti(context: seq<Word>, answer: seq<Word>): (r: (int, int))
    ensures r.0 == -1 <==> forall i :: !MatchesAt(context, answer, i)
    ensures r.0 != -1 ==> 0 <= r.0 && MatchesAt(context, answer, r.0) && r.1 == r.0 + |answer| + 1
    ensures r.0 != -1 ==> forall j :: 0 <= j < r.0 ==> !MatchesAt(context, answer, j)
    ensures r.0 == -1 ==> r.1 == -1
  {
    match LeftmostMatch(context, answer)
    case None => (-1, -1)
    case Some(i) => (i as int, i + |answer| + 1)
  }

  /** The end index vectorizeData stores (`xAnswerEnd[i] - 1`) lies one past the answer. */
  lemma FindAnswerMultiStoredEnd(context: seq<Word>, answer: seq<Word>)
    requires FindAnswerMulti(context, answer).0 != -1
    ensures FindAnswerMulti(context, answer).1 - 1 == FindAnswerMulti(context, answer).0 + |answer|
    ensures FindAnswerMulti(context, answer).1 - 1 <= |context|
  {
  }

  /**
   * A concrete context whose answer is its last token: the stored end index
   * is 2, which is len(context), outside the context; the answer's last token
   * is at 1.
   */
  lemma StoredEndPastContext()
    ensures FindAnswerMulti(["a", "b"], ["b"]) == (1, 3)
    ensures FindAnswerMulti(["a", "b"], ["b"]).1 - 1 == |["a", "b"]|
  {
    var context: seq<Word> := ["a", "b"];
    var answer: seq<Word> := ["b"];
    assert !MatchesAt(context, answer, 0) by { assert context[0..1] == ["a"]; }
    assert MatchesAt(context, answer, 1) by { assert context[1..2] == ["b"]; }
  }

  /** The inclusive end index data.py uses and saveAnswersForEval's slice [begin:end+1] expects. */
  function AnswerLast(context: seq<Word>, answer: seq<Word>): (r: int)
    requires FindAnswerMulti(context, answer).0 != -1
  {
    FindAnswerMulti(context, answer).0 + |answer| - 1
  }

  /** With the inclusive end the slice [begin:end+1] is exactly the answer, and the end lies inside the context. */
  lemma AnswerLastSpellsAnswer(context: seq<Word>, answer: seq<Word>)
    requires |answer| > 0 && FindAnswerMulti(context, answer).0 != -1
    ensures var b := FindAnswerMulti(context, answer).0;
      0 <= b <= AnswerLast(context, answer) < |context| &&
      context[b..AnswerLast(context, answer) + 1] == answer
  {
  }

  /** One example: the entries the parallel lists of splitMsmarcoDatasets get for one query. */
  datatype MultiExample = MultiExample(
    context: seq<Word>, question: seq<Word>, questionId: int,
    answerBegin: int, answerEnd: int, answerText: string,
    passageLengths: seq<nat>)

  /** The examples plus the running maxima of context and question length. */
  datatype MultiSplit = MultiSplit(examples: seq<MultiExample>, maxLenContext: nat, maxLenQuestion: nat)

  /** `self.tokenize(answer.lower())` occurs in the context. */
  predicate Found(context: seq<Word>, answer: string, tokenize: Tokenizer)
  {
    FindAnswerMulti(context, tokenize(answer)).0 != -1
  }

  /**
   * The loop over data['answers'] from position k on: the index of the first
   * answer found in the context (empty answers included), if any.
   */
  function FirstFoundFrom(context: seq<Word>, answers: seq<string>, tokenize: Tokenizer, k: nat): (r: Option<nat>)
    decreases |answers| - k
    ensures r.None? <==> forall j :: k <= j < |answers| ==> !Found(context, answers[j], tokenize)
    ensures r.Some? ==> k <= r.value < |answers| && Found(context, answers[r.value], tokenize)
    ensures r.Some? ==> forall j :: k <= j < r.value ==> !Found(context, answers[j], tokenize)
  {
    if k >= |answers| then None
    else if Found(context, answers[k], tokenize) then Some(k)
    else FirstFoundFrom(context, answers, tokenize, k + 1)
  }

  /** The concatenated context of a query: `passages += contextTokenized` over its passages. */
  function Concatenated(q: Query, tokenize: Tokenizer): seq<Word>
  {
    Flatten(SplitSingle.TokenizeAll(q.passages, tokenize))
  }

  /** `passage_lengths`: the token count of each passage. */
  function PassageLengths(q: Query, tokenize: Tokenizer): seq<nat>
  {
    Lengths(SplitSingle.TokenizeAll(q.passages, tokenize))
  }

  /** What one query does to the split: raises both maxima, and emits the example of its first found answer. */
  function RecordStep(s: MultiSplit, q: Query, tokenize: Tokenizer): MultiSplit
  {
    var context := Concatenated(q, tokenize);
    var question := tokenize(q.query);
    var s' := MultiSplit(s.examples, Max(s.maxLenContext, |context|), Max(s.maxLenQuestion, |question|));
    match FirstFoundFrom(context, q.answers, tokenize, 0)
    case None => s'
    case Some(k) =>
      var span := FindAnswerMulti(context, tokenize(q.answers[k]));
      MultiSplit(s'.examples + [MultiExample(context, question, q.queryId, span.0, span.1, q.answers[k],
                                             PassageLengths(q, tokenize))],
                 s'.maxLenContext, s'.maxLenQuestion)
  }

  /** splitMsmarcoDatasets of data_multi.py over a list of records, as a fold over the records. */
  function SplitRecordsMulti(records: seq<Query>, tokenize: Tokenizer): MultiSplit
  {
    if records == [] then MultiSplit([], 0, 0)
    else RecordStep(SplitRecordsMulti(records[..|records| - 1], tokenize), records[|records| - 1], tokenize)
  }

  /** A query emits at most one example, and does exactly when one of its answers is found. */
  lemma RecordStepEmits(s: MultiSplit, q: Query, tokenize: Tokenizer)
    ensures |RecordStep(s, q, tokenize).examples| == |s.examples| + 1 <==>
      exists k :: 0 <= k < |q.answers| && Found(Concatenated(q, tokenize), q.answers[k], tokenize)
    ensures |RecordStep(s, q, tokenize).examples| == |s.examples| + 1 ||
      RecordStep(s, q, tokenize).examples == s.examples
    ensures RecordStep(s, q, tokenize).examples[..|s.examples|] == s.examples
    ensures RecordStep(s, q, tokenize).maxLenContext == Max(s.maxLenContext, |Concatenated(q, tokenize)|)
    ensures RecordStep(s, q, tokenize).maxLenQuestion == Max(s.maxLenQuestion, |tokenize(q.query)|)
  {
  }

  /**
   * The properties of the example a query emits: its context is the
   * concatenation of the passages, whose recorded lengths add up to the
   * context's length; the answer is the first one found, at its leftmost
   * occurrence, with the end index len(answer) + 1 past the begin.
   */
  predicate WellFormedFor(e: MultiExample, q: Query, tokenize: Tokenizer)
  {
    && e.context == Concatenated(q, tokenize)
    && e.passageLengths == PassageLengths(q, tokenize)
    && Sum(e.passageLengths) == |e.context|
    && e.question == tokenize(q.query)
    && e.questionId == q.queryId
    && 0 <= e.answerBegin && MatchesAt(e.context, tokenize(e.answerText), e.answerBegin)
    && (forall j :: 0 <= j < e.answerBegin ==> !MatchesAt(e.context, tokenize(e.answerText), j))
    && e.answerEnd == e.answerBegin + |tokenize(e.answerText)| + 1
    && exists k :: 0 <= k < |q.answers| && q.answers[k] == e.answerText &&
         forall j :: 0 <= j < k ==> !Found(e.context, q.answers[j], tokenize)
  }

  /** The example RecordStep emits is well formed for its query. */
  lemma {:induction false} RecordStepWellFormed(s: MultiSplit, q: Query, tokenize: Tokenizer)
    requires |RecordStep(s, q, tokenize).examples| > |s.examples|
    ensures WellFormedFor(RecordStep(s, q, tokenize).examples[|s.examples|], q, tokenize)
  {
    var context := Concatenated(q, tokenize);
    FlattenLength(SplitSingle.TokenizeAll(q.passages, tokenize));
    var k := FirstFoundFrom(context, q.answers, tokenize, 0).value;
    var e := RecordStep(s, q, tokenize).examples[|s.examples|];
    assert e.answerText == q.answers[k];
  }

  /** Each record emits at most one example. */
  lemma {:induction false} SplitRecordsMultiAtMostOne(records: seq<Query>, tokenize: Tokenizer)
    ensures |SplitRecordsMulti(records, tokenize).examples| <= |records|
  {
    if records != [] {
      SplitRecordsMultiAtMostOne(records[..|records| - 1], tokenize);
      RecordStepEmits(SplitRecordsMulti(records[..|records| - 1], tokenize), records[|records| - 1], tokenize);
    }
  }

  /** The record example i came from. */
  lemma {:induction false} ExampleSource(records: seq<Query>, tokenize: Tokenizer, i: nat) returns (r: nat)
    requires i < |SplitRecordsMulti(records, tokenize).examples|
    ensures r < |records| && WellFormedFor(SplitRecordsMulti(records, tokenize).examples[i], records[r], tokenize)
  {
    var front := records[..|records| - 1];
    var q := records[|records| - 1];
    var s := SplitRecordsMulti(front, tokenize);
    RecordStepEmits(s, q, tokenize);
    if i < |s.examples| {
      assert SplitRecordsMulti(records, tokenize).examples[i] == s.examples[i];
      r := ExampleSource(front, tokenize, i);
      assert records[r] == front[r];
    } else {
      RecordStepWellFormed(s, q, tokenize);
      r := |records| - 1;
    }
  }

  /** The example is well formed for one of the records. */
  predicate FromSomeRecord(e: MultiExample, records: seq<Query>, tokenize: Tokenizer)
  {
    exists r :: 0 <= r < |records| && WellFormedFor(e, records[r], tokenize)
  }

  /** Every example of a dataset is well formed for one of its records. */
  lemma SplitRecordsMultiWellFormed(records: seq<Query>, tokenize: Tokenizer)
    ensures forall i :: 0 <= i < |SplitRecordsMulti(records, tokenize).examples| ==>
      FromSomeRecord(SplitRecordsMulti(records, tokenize).examples[i], records, tokenize)
  {
    forall i | 0 <= i < |SplitRecordsMulti(records, tokenize).examples|
      ensures FromSomeRecord(SplitRecordsMulti(records, tokenize).examples[i], records, tokenize)
    {
      var r := ExampleSource(records, tokenize, i);
    }
  }

  /** maxLenContext and maxLenQuestion bound every record's concatenated context and question. */
  lemma {:induction false} SplitRecordsMultiMaxima(records: seq<Query>, tokenize: Tokenizer)
    ensures forall r :: 0 <= r < |records| ==>
      |Concatenated(records[r], tokenize)| <= SplitRecordsMulti(records, tokenize).maxLenContext
    ensures forall r :: 0 <= r < |records| ==>
      |tokenize(records[r].query)| <= SplitRecordsMulti(records, tokenize).maxLenQuestion
  {
    if records != [] {
      var front := records[..|records| - 1];
      SplitRecordsMultiMaxima(front, tokenize);
      RecordStepEmits(SplitRecordsMulti(front, tokenize), records[|records| - 1], tokenize);
      forall r | 0 <= r < |front| ensures records[r] == front[r] { }
    }
  }

  /** The passage loop for one query: the concatenated tokens and each passage's length. */
  method ConcatPassages(q: Query, tokenize: Tokenizer) returns (passages: seq<Word>, passageLengths: seq<nat>)
    ensures passages == Concatenated(q, tokenize)
    ensures passageLengths == PassageLengths(q, tokenize)
  {
    passages, passageLengths := [], [];
    ghost var lists: seq<seq<Word>> := [];
    for p := 0 to |q.passages|
      invariant lists == SplitSingle.TokenizeAll(q.passages[..p], tokenize)
      invariant passages == Flatten(lists)
      invariant passageLengths == Lengths(lists)
    {
      var contextTokenized := tokenize(q.passages[p].passageText);
      ConcatStep(q.passages, p, lists, tokenize);
      passageLengths := passageLengths + [|contextTokenized|];
      passages := passages + contextTokenized;
      lists := lists + [contextTokenized];
    }
    assert q.passages[..|q.passages|] == q.passages;
  }

  lemma ConcatStep(ps: seq<Passage>, p: nat, lists: seq<seq<Word>>, tokenize: Tokenizer)
    requires p < |ps| && lists == SplitSingle.TokenizeAll(ps[..p], tokenize)
    ensures SplitSingle.TokenizeAll(ps[..p + 1], tokenize) == lists + [tokenize(ps[p].passageText)]
    ensures Flatten(lists + [tokenize(ps[p].passageText)]) == Flatten(lists) + tokenize(ps[p].passageText)
    ensures Lengths(lists + [tokenize(ps[p].passageText)]) == Lengths(lists) + [|tokenize(ps[p].passageText)|]
  {
    var x := tokenize(ps[p].passageText);
    assert ps[..p + 1][..p] == ps[..p];
    assert (lists + [x])[..p] == lists;
  }

  /** The answer loop for one query: the first answer found, with the span findAnswer gives it. */
  method FirstAnswerFound(context: seq<Word>, answers: seq<string>, tokenize: Tokenizer)
    returns (found: Option<nat>, answerBegin: int, answerEnd: int)
    ensures found == FirstFoundFrom(context, answers, tokenize, 0)
    ensures found.Some? ==> (answerBegin, answerEnd) == FindAnswerMulti(context, tokenize(answers[found.value]))
  {
    found, answerBegin, answerEnd := None, -1, -1;
    var k := 0;
    while k < |answers|
      invariant k <= |answers|
      invariant FirstFoundFrom(context, answers, tokenize, k) == FirstFoundFrom(context, answers, tokenize, 0)
    {
      var answerTokenized := tokenize(answers[k]);
      var span := FindAnswerMulti(context, answerTokenized);
      if span.0 != -1 {
        found, answerBegin, answerEnd := Some(k), span.0, span.1;
        return;
      }
      k := k + 1;
    }
  }

  /**
   * splitMsmarcoDatasets of data_multi.py: for each record the concatenated
   * context and passage lengths, the running maxima, and the example of the
   * first answer found anywhere in the context.
   */
  method SplitMsmarcoDatasetsMulti(records: seq<Query>, tokenize: Tokenizer)
    returns (examples: seq<MultiExample>, maxLenContext: nat, maxLenQuestion: nat)
    ensures MultiSplit(examples, maxLenContext, maxLenQuestion) == SplitRecordsMulti(records, tokenize)
  {
    examples, maxLenContext, maxLenQuestion := [], 0, 0;
    for r := 0 to |records|
      invariant MultiSplit(examples, maxLenContext, maxLenQuestion) == SplitRecordsMulti(records[..r], tokenize)
    {
      var data := records[r];
      assert records[..r + 1][..r] == records[..r];
      var passages, passageLengths := ConcatPassages(data, tokenize);
      if |passages| > maxLenContext {
        maxLenContext := |passages|;
      }
      var questionTokenized := tokenize(data.query);
      if |questionTokenized| > maxLenQuestion {
        maxLenQuestion := |questionTokenized|;
      }
      var found, answerBegin, answerEnd := FirstAnswerFound(passages, data.answers, tokenize);
      if found.Some? {
        examples := examples + [MultiExample(passages, questionTokenized, data.queryId, answerBegin, answerEnd,
                                             data.answers[found.value], passageLengths)];
      }
    }
    assert records[..|records|] == records;
  }
}
