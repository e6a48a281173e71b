// The Data class of data.py: the dense re-indexing of the vocabulary to the
// words that have a GloVe vector (createEmbeddingMatrix), the index rows of
// vectorizeData and vectorizeDataMutli, pad_sequences with the reserved id
// vocab_size + len(unknown_classes), and the cyclic cursors of getValBatch
// and getTestBatch.

module DataSingle {
  import opened Tokens
  import opened Vocabulary
  import opened Msmarco
  import opened SplitSingle
  import opened UnknownWords
  import opened Padding
  import opened Batching

  /** A GloVe vector (its floats are carried, never computed with). */
  type Vector = seq<real>

  /** The fields of the command-line config the class reads. */
  datatype Config = Config(batchSize: nat, keepProb: real, smartUnk: bool)

  /** No word occurs twice (the keys of a dict). */
  predicate Distinct(s: seq<Word>)
  {
    forall i, j :: 0 <= i < j < |s| ==> s[i] != s[j]
  }

  /**
   * `dict((c, i) for i, c in enumerate(s))`, built one word at a time as the
   * loop of createEmbeddingMatrix does with `new_word_index[word] = len(embedding_matrix) - 1`.
   */
  function IndexMap(s: seq<Word>): (m: map<Word, int>)
    ensures forall w :: w in m <==> w in s
  {
    if s == [] then map[] else IndexMap(s[..|s| - 1])[s[|s| - 1] := |s| - 1]
  }

  /**
   * Over distinct words the index map is dense: it holds len(s) words, word
   * s[k] gets index k, and looking an index up in s gives the word back.
   */
  lemma {:induction false} IndexMapDense(s: seq<Word>)
    requires Distinct(s)
    ensures |IndexMap(s)| == |s|
    ensures forall k :: 0 <= k < |s| ==> IndexMap(s)[s[k]] == k
    ensures forall w :: w in IndexMap(s) ==> 0 <= IndexMap(s)[w] < |s| && s[IndexMap(s)[w]] == w
  {
    if s != [] {
      var front := s[..|s| - 1];
      assert Distinct(front) by {
        forall i, j | 0 <= i < j < |front| ensures front[i] != front[j] { assert front[i] == s[i] && front[j] == s[j]; }
      }
      IndexMapDense(front);
      assert s[|s| - 1] !in front by {
        forall k | 0 <= k < |front| ensures front[k] != s[|s| - 1] { assert front[k] == s[k]; }
      }
      forall k | 0 <= k < |front| ensures s[k] == front[k] { }
    }
  }

  /** A dense index map meets the DenseIndex condition of the row lemmas. */
  lemma IndexMapIsDense(s: seq<Word>)
    requires Distinct(s)
    ensures DenseIndex(IndexMap(s))
  {
    IndexMapDense(s);
  }

  /** The words createEmbeddingMatrix keeps: the keys that have a vector, in key order. */
  function KeptWords(keys: seq<Word>, embeddings: map<Word, Vector>): (kept: seq<Word>)
    ensures forall w :: w in kept <==> w in keys && w in embeddings
    ensures |kept| <= |keys|
  {
    if keys == [] then []
    else
      var front := KeptWords(keys[..|keys| - 1], embeddings);
      var w := keys[|keys| - 1];
      assert forall x :: x in keys <==> x in keys[..|keys| - 1] || x == w;
      if w in embeddings then front + [w] else front
  }

  /** Keeping some of the words of a sorted vocabulary leaves it sorted. */
  lemma {:induction false} KeptWordsSorted(keys: seq<Word>, embeddings: map<Word, Vector>)
    requires StrictlySorted(keys)
    ensures StrictlySorted(KeptWords(keys, embeddings))
  {
    if keys != [] {
      var front := keys[..|keys| - 1];
      var w := keys[|keys| - 1];
      KeptWordsSorted(front, embeddings);
      var kf := KeptWords(front, embeddings);
      if w in embeddings {
        var kept := kf + [w];
        forall i, j | 0 <= i < j < |kept| ensures Less(kept[i], kept[j]) {
          if j == |kept| - 1 {
            assert kept[i] in kf;
            var m :| 0 <= m < |front| && front[m] == kept[i];
            assert keys[m] == kept[i];
          } else {
            assert kept[i] == kf[i] && kept[j] == kf[j];
          }
        }
      }
    }
  }

  /** Distinct keys keep distinct words. */
  lemma {:induction false} KeptWordsDistinct(keys: seq<Word>, embeddings: map<Word, Vector>)
    requires Distinct(keys)
    ensures Distinct(KeptWords(keys, embeddings))
  {
    if keys != [] {
      var front := keys[..|keys| - 1];
      var w := keys[|keys| - 1];
      assert Distinct(front) by {
        forall i, j | 0 <= i < j < |front| ensures front[i] != front[j] { assert front[i] == keys[i] && front[j] == keys[j]; }
      }
      KeptWordsDistinct(front, embeddings);
      var kf := KeptWords(front, embeddings);
      if w in embeddings {
        assert w !in front by {
          forall k | 0 <= k < |front| ensures front[k] != w { assert front[k] == keys[k]; }
        }
        var kept := kf + [w];
        forall i, j | 0 <= i < j < |kept| ensures kept[i] != kept[j] {
          if j == |kept| - 1 { assert kept[i] in kf; } else { assert kept[i] == kf[i] && kept[j] == kf[j]; }
        }
      }
    }
  }

  /** What one more key adds to the kept words, the index map and the matrix rows. */
  lemma KeepStep(keys: seq<Word>, k: nat, embeddings: map<Word, Vector>)
    requires k < |keys|
    ensures var v := KeptWords(keys[..k], embeddings);
      && KeptWords(keys[..k + 1], embeddings) == v + (if keys[k] in embeddings then [keys[k]] else [])
      && IndexMap(v + [keys[k]]) == IndexMap(v)[keys[k] := |v|]
      && (keys[k] in embeddings ==> Rows(v + [keys[k]], embeddings) == Rows(v, embeddings) + [embeddings[keys[k]]])
  {
    var v := KeptWords(keys[..k], embeddings);
    assert keys[..k + 1][..k] == keys[..k];
    assert (v + [keys[k]])[..|v|] == v;
  }

  /** The rows of the embedding matrix: the vector of each kept word, in order. */
  function Rows(kept: seq<Word>, embeddings: map<Word, Vector>): (m: seq<Vector>)
    requires forall w :: w in kept ==> w in embeddings
    ensures |m| == |kept| && forall k :: 0 <= k < |kept| ==> m[k] == embeddings[kept[k]]
  {
    if kept == [] then []
    else
      assert forall w :: w in kept[..|kept| - 1] ==> w in kept;
      Rows(kept[..|kept| - 1], embeddings) + [embeddings[kept[|kept| - 1]]]
  }

  /** The entries of row k of vectorizeDataMutli before padding: unknown question words go to the last passage's row. */
  function PassageRow(ps: seq<seq<Word>>, question: seq<Word>, k: nat, wordIndex: map<Word, int>, classes: seq<UnknownClass>): seq<int>
    requires k < |ps|
  {
    ContextRow(ps[k], wordIndex, classes) + (if k == |ps| - 1 then QuestionExtras(question, wordIndex, classes) else [])
  }

  /** What getValBatch returns (the passage weights are not modelled). */
  datatype ValBatch = ValBatch(vm: seq<MultiRecord>, vmX: seq<seq<seq<int>>>, vmXq: seq<seq<int>>, vmXqLen: seq<nat>)

  /** What getTestBatch returns (the passage weights are not modelled). */
  datatype TestBatch = TestBatch(tem: seq<MultiRecord>, temX: seq<seq<seq<int>>>, teXq: seq<seq<int>>)

  /** The question lengths of a list of examples (vXqLen). */
  function QuestionLens(examples: seq<Example>): (r: seq<nat>)
    ensures |r| == |examples| && forall k :: 0 <= k < |examples| ==> r[k] == examples[k].questionLen
  {
    if examples == [] then [] else QuestionLens(examples[..|examples| - 1]) + [examples[|examples| - 1].questionLen]
  }

  /** The contexts, questions and answer indices of a list of examples (tContext, tQuestion, ...). */
  function Contexts(ex: seq<Example>): (r: seq<seq<Word>>)
    ensures |r| == |ex| && forall i :: 0 <= i < |ex| ==> r[i] == ex[i].context
  {
    seq(|ex|, i requires 0 <= i < |ex| => ex[i].context)
  }

  function Questions(ex: seq<Example>): (r: seq<seq<Word>>)
    ensures |r| == |ex| && forall i :: 0 <= i < |ex| ==> r[i] == ex[i].question
  {
    seq(|ex|, i requires 0 <= i < |ex| => ex[i].question)
  }

  function Begins(ex: seq<Example>): (r: seq<int>)
    ensures |r| == |ex| && forall i :: 0 <= i < |ex| ==> r[i] == ex[i].span.begin
  {
    seq(|ex|, i requires 0 <= i < |ex| => ex[i].span.begin)
  }

  function Ends(ex: seq<Example>): (r: seq<int>)
    ensures |r| == |ex| && forall i :: 0 <= i < |ex| ==> r[i] == ex[i].span.end
  {
    seq(|ex|, i requires 0 <= i < |ex| => ex[i].span.end)
  }

  /** The passage lists and the questions of a list of queries (vmContext, vmQuestion, ...). */
  function PassageLists(recs: seq<MultiRecord>): (r: seq<seq<seq<Word>>>)
    ensures |r| == |recs| && forall i :: 0 <= i < |recs| ==> r[i] == recs[i].passages
  {
    seq(|recs|, i requires 0 <= i < |recs| => recs[i].passages)
  }

  function RecordQuestions(recs: seq<MultiRecord>): (r: seq<seq<Word>>)
    ensures |r| == |recs| && forall i :: 0 <= i < |recs| ==> r[i] == recs[i].question
  {
    seq(|recs|, i requires 0 <= i < |recs| => recs[i].question)
  }

  /**
   * The sentences the vocabulary is built over: training contexts and
   * questions, every validation-for-eval passage, validation questions,
   * every test passage and test questions.
   */
  function VocabSentences(train: seq<Example>, val: seq<Example>, vm: seq<MultiRecord>, tem: seq<MultiRecord>): seq<seq<Word>>
  {
    Contexts(train) + Questions(train) + Flatten(PassageLists(vm)) + Questions(val)
      + Flatten(PassageLists(tem)) + RecordQuestions(tem)
  }

  /**
   * With the index createEmbeddingMatrix returns and the pad id of the class,
   * a padded row holds the pad id exactly at the padding: no word and no
   * unknown class shares the id.
   */
  lemma PadIdMarksVectorPadding(context: seq<Word>, question: seq<Word>, kept: seq<Word>, classes: seq<UnknownClass>,
                                maxlen: int, k: int)
    requires Distinct(kept)
    requires 0 <= k < |Padded(VectorizeRecord(context, question, IndexMap(kept), classes).0, maxlen, |kept| + |classes|)|
    ensures Padded(VectorizeRecord(context, question, IndexMap(kept), classes).0, maxlen, |kept| + |classes|)[k] == |kept| + |classes|
      <==> k >= |VectorizeRecord(context, question, IndexMap(kept), classes).0|
  {
    IndexMapDense(kept);
    VectorizeRecordBelowPad(context, question, IndexMap(kept), classes);
    PadIdMarksPadding(VectorizeRecord(context, question, IndexMap(kept), classes).0, maxlen, |kept| + |classes|, k);
  }

  /**
   * getValBatch as written never reaches a query past the number of
   * validation examples: every window of every call ends at or before len(vX).
   */
  lemma ValBatchesStopAtExamples(calls: nat, batchSize: nat, numExamples: nat)
    requires batchSize > 0
    ensures Window(CursorAfter(calls, batchSize, numExamples), batchSize, numExamples).1 <= numExamples
  {
    WindowsStayBelow(calls, batchSize, numExamples);
  }

  /**
   * A validation query whose passages are all unselected gives no example,
   * so with it alone there are no validation batches at all and the query,
   * though it is in vm*, is never served.
   */
  lemma UnselectedQueryNeverServed(q: Query, tokenize: Tokenizer, batchSize: nat)
    requires batchSize > 0
    requires forall p :: p in q.passages ==> p.isSelected == 0
    ensures SplitRecords([q], tokenize).examples == []
    ensures NumBatches(|SplitRecords([q], tokenize).examples|, batchSize) == 0
  {
    UnselectedScan(Split([], 0, 0), q, q.passages, tokenize);
    assert [q][..0] == [];
  }

  lemma {:induction false} UnselectedScan(s: Split, q: Query, ps: seq<Passage>, tokenize: Tokenizer)
    requires forall p :: p in ps ==> p.isSelected == 0
    ensures ScanPassages(s, q, ps, tokenize).examples == s.examples
    decreases |ps|
  {
    if ps != [] {
      assert ps[0] in ps;
      assert forall p :: p in ps[1..] ==> p in ps;
      UnselectedScan(s, q, ps[1..], tokenize);
    }
  }

  /**
   * The four splits of __init__ and the overall maxima: the training and
   * validation examples of splitMsmarcoDatasets, one record per validation
   * and test query from splitMsmarcoDatasetsTest, and, as max_context_size
   * and max_ques_size, the largest of the training, validation-for-eval and
   * test maxima.
   */
  predicate SplitsOf(trainData: seq<Query>, valData: seq<Query>, testData: seq<Query>, tokenize: Tokenizer,
                     tEx: seq<Example>, vEx: seq<Example>, vmRecs: seq<MultiRecord>, teRecs: seq<MultiRecord>,
                     maxC: int, maxQ: int)
  {
    && tEx == SplitRecords(trainData, tokenize).examples
    && vEx == SplitRecords(valData, tokenize).examples
    && vmRecs == TestRecords(valData, tokenize)
    && teRecs == TestRecords(testData, tokenize)
    && maxC == Max(Max(SplitRecords(trainData, tokenize).maxLenContext, TestMaxima(valData, tokenize).0),
                   TestMaxima(testData, tokenize).0)
    && maxQ == Max(Max(SplitRecords(trainData, tokenize).maxLenQuestion, TestMaxima(valData, tokenize).1),
                   TestMaxima(testData, tokenize).1)
  }

  /** `sum(len(p) for p in xContext)`: the divisor of vectorizeData's 'Percentage Unknown'. */
  function TotalLength(xs: seq<seq<Word>>): nat
  {
    if xs == [] then 0 else TotalLength(xs[..|xs| - 1]) + |xs[|xs| - 1]|
  }

  /** `sum(len(p) for s in xContext for p in s)`: the divisor of vectorizeDataMutli's 'Percentage Unknown'. */
  function TotalPassageLength(xss: seq<seq<seq<Word>>>): nat
  {
    if xss == [] then 0 else TotalPassageLength(xss[..|xss| - 1]) + TotalLength(xss[|xss| - 1])
  }

  /** A non-empty token list makes the total positive. */
  lemma {:induction false} TotalLengthPositive(xs: seq<seq<Word>>, i: nat)
    requires i < |xs| && xs[i] != []
    ensures TotalLength(xs) > 0
  {
    if i < |xs| - 1 {
      TotalLengthPositive(xs[..|xs| - 1], i);
    }
  }

  /** With every token list empty the total is zero: the division of 'Percentage Unknown' fails. */
  lemma {:induction false} TotalLengthZero(xs: seq<seq<Word>>)
    requires forall i :: 0 <= i < |xs| ==> xs[i] == []
    ensures TotalLength(xs) == 0
  {
    if xs != [] {
      TotalLengthZero(xs[..|xs| - 1]);
    }
  }

  /** A non-empty passage anywhere makes the total positive. */
  lemma {:induction false} TotalPassageLengthPositive(xss: seq<seq<seq<Word>>>, i: nat, k: nat)
    requires i < |xss| && k < |xss[i]| && xss[i][k] != []
    ensures TotalPassageLength(xss) > 0
  {
    if i < |xss| - 1 {
      TotalPassageLengthPositive(xss[..|xss| - 1], i, k);
    } else {
      TotalLengthPositive(xss[i], k);
    }
  }

  /** With every passage empty the total is zero. */
  lemma {:induction false} TotalPassageLengthZero(xss: seq<seq<seq<Word>>>)
    requires forall i, k :: 0 <= i < |xss| && 0 <= k < |xss[i]| ==> xss[i][k] == []
    ensures TotalPassageLength(xss) == 0
  {
    if xss != [] {
      TotalPassageLengthZero(xss[..|xss| - 1]);
      TotalLengthZero(xss[|xss| - 1]);
    }
  }

  /** Some example has a non-empty context: vectorizeData can compute its statistic. */
  predicate SomeContext(ex: seq<Example>)
  {
    exists e :: e in ex && e.context != []
  }

  /** Some passage of some record is non-empty: vectorizeDataMutli can compute its statistic. */
  predicate SomePassage(recs: seq<MultiRecord>)
  {
    exists r, ps :: r in recs && ps in r.passages && ps != []
  }

  /** Some passage of some query tokenizes to at least one word. */
  predicate SomePassageText(data: seq<Query>, tokenize: Tokenizer)
  {
    exists q, p :: q in data && p in q.passages && tokenize(p.passageText) != []
  }

  /** The four splitting calls of __init__ and the maxima of data.py:63-64. */
  method SplitDatasets(trainData: seq<Query>, valData: seq<Query>, testData: seq<Query>, tokenize: Tokenizer)
    returns (tEx: seq<Example>, vEx: seq<Example>, vmRecs: seq<MultiRecord>, teRecs: seq<MultiRecord>, maxC: nat, maxQ: nat)
    ensures SplitsOf(trainData, valData, testData, tokenize, tEx, vEx, vmRecs, teRecs, maxC, maxQ)
    ensures |vEx| <= |vmRecs|
  {
    var tMaxC, tMaxQ, vMaxC, vMaxQ, vmMaxC, vmMaxQ, teMaxC, teMaxQ;
    tEx, tMaxC, tMaxQ := SplitMsmarcoDatasets(trainData, tokenize);
    vEx, vMaxC, vMaxQ := SplitMsmarcoDatasets(valData, tokenize);
    vmRecs, vmMaxC, vmMaxQ := SplitMsmarcoDatasetsTest(valData, tokenize);
    teRecs, teMaxC, teMaxQ := SplitMsmarcoDatasetsTest(testData, tokenize);
    maxC := Max(Max(tMaxC, vmMaxC), teMaxC);
    maxQ := Max(Max(tMaxQ, vmMaxQ), teMaxQ);
    SplitRecordsExamples(valData, tokenize);
  }

  /** splitMsmarcoDatasetsTest keeps every passage of every query. */
  lemma TestRecordsPassages(data: seq<Query>, tokenize: Tokenizer)
    requires forall q :: q in data ==> |q.passages| > 0
    ensures forall i :: 0 <= i < |data| ==> |TestRecords(data, tokenize)[i].passages| > 0
  {
    forall i | 0 <= i < |data| ensures |TestRecords(data, tokenize)[i].passages| > 0 {
      TestRecordAt(data, i, tokenize);
      assert data[i] in data;
    }
  }

  /** A passage that tokenizes to some word stays non-empty in the records. */
  lemma TestRecordsSomePassage(data: seq<Query>, tokenize: Tokenizer)
    requires SomePassageText(data, tokenize)
    ensures SomePassage(TestRecords(data, tokenize))
  {
    var q, p :| q in data && p in q.passages && tokenize(p.passageText) != [];
    var i :| 0 <= i < |data| && data[i] == q;
    var k :| 0 <= k < |q.passages| && q.passages[k] == p;
    TestRecordAt(data, i, tokenize);
    var r := TestRecords(data, tokenize)[i];
    assert r in TestRecords(data, tokenize) && r.passages[k] in r.passages;
  }

  /**
   * The middle of __init__: the sorted vocabulary of all four splits,
   * re-indexed by createEmbeddingMatrix to the words that have a vector.
   */
  method BuildIndex(tEx: seq<Example>, vEx: seq<Example>, vmRecs: seq<MultiRecord>, teRecs: seq<MultiRecord>,
                    embeddingsIndex: map<Word, Vector>)
    returns (kept: seq<Word>, matrix: seq<Vector>, wordIndex: map<Word, int>)
    requires "a" in embeddingsIndex
    ensures kept == KeptWords(BuildVocab(VocabSentences(tEx, vEx, vmRecs, teRecs)), embeddingsIndex)
    ensures StrictlySorted(kept)
    ensures matrix == Rows(kept, embeddingsIndex) && wordIndex == IndexMap(kept)
  {
    var v := BuildVocab(VocabSentences(tEx, vEx, vmRecs, teRecs));
    StrictlySortedDistinct(v);
    var r := CreateEmbeddingMatrix(embeddingsIndex, v);
    kept, matrix, wordIndex := r.value.0, r.value.1, r.value.2;
    KeptWordsSorted(v, embeddingsIndex);
  }

  /** The question lengths of a list of queries (vmXqLen). */
  function RecordQuestionLens(recs: seq<MultiRecord>): (r: seq<nat>)
    ensures |r| == |recs| && forall i :: 0 <= i < |recs| ==> r[i] == recs[i].questionLen
  {
    seq(|recs|, i requires 0 <= i < |recs| => recs[i].questionLen)
  }

  /**
   * The evidently intended validation-for-eval batch: the window runs over
   * the queries of vm* and the question lengths are those of the same queries.
   */
  function ValEvalBatch(cursor: nat, batchSize: nat, vm: seq<MultiRecord>, vmX: seq<seq<seq<int>>>, vmXq: seq<seq<int>>): (b: ValBatch)
    requires batchSize > 0 && CursorOk(cursor, batchSize, |vm|)
    requires |vmX| == |vmXq| == |vm|
  {
    WindowInRange(cursor, batchSize, |vm|);
    var (s, e) := Window(cursor, batchSize, |vm|);
    ValBatch(vm[s..e], vmX[s..e], vmXq[s..e], RecordQuestionLens(vm)[s..e])
  }

  /**
   * Over one cycle of ceil(len(vm) / batch_size) calls every query is served
   * exactly once, at call p / batch_size.
   */
  lemma ValEvalCycleServesEveryQueryOnce(p: nat, j: nat, batchSize: nat, numQueries: nat)
    requires batchSize > 0 && p < numQueries && j < NumBatches(numQueries, batchSize)
    ensures CursorOk(CursorAfter(j, batchSize, numQueries), batchSize, numQueries)
    ensures Window(CursorAfter(j, batchSize, numQueries), batchSize, numQueries).0 <= p
              < Window(CursorAfter(j, batchSize, numQueries), batchSize, numQueries).1
            <==> j == p / batchSize
  {
    CursorAfterOk(j, batchSize, numQueries);
    CycleServesEachPositionOnce(p, j, batchSize, numQueries);
  }

  /**
   * The intended batch of a call whose window holds query p serves that
   * query's record, vectors and question length, at p's offset in the window.
   */
  lemma ValEvalBatchServesQuery(cursor: nat, p: nat, batchSize: nat, vm: seq<MultiRecord>, vmX: seq<seq<seq<int>>>, vmXq: seq<seq<int>>)
    requires batchSize > 0 && CursorOk(cursor, batchSize, |vm|)
    requires |vmX| == |vmXq| == |vm|
    requires Window(cursor, batchSize, |vm|).0 <= p < Window(cursor, batchSize, |vm|).1
    ensures var b := ValEvalBatch(cursor, batchSize, vm, vmX, vmXq);
            var k := p - Window(cursor, batchSize, |vm|).0;
      && k < |b.vm| && b.vm[k] == vm[p] && b.vmX[k] == vmX[p] && b.vmXq[k] == vmXq[p]
      && b.vmXqLen[k] == vm[p].questionLen
  {
    WindowInRange(cursor, batchSize, |vm|);
    var (s, e) := Window(cursor, batchSize, |vm|);
    var b := ValEvalBatch(cursor, batchSize, vm, vmX, vmXq);
    assert b.vm == vm[s..e] && b.vmX == vmX[s..e] && b.vmXq == vmXq[s..e];
    assert b.vmXqLen == RecordQuestionLens(vm)[s..e];
  }

  /** Each question length of the intended batch belongs to the query served beside it. */
  lemma ValEvalBatchAligned(cursor: nat, batchSize: nat, vm: seq<MultiRecord>, vmX: seq<seq<seq<int>>>, vmXq: seq<seq<int>>)
    requires batchSize > 0 && CursorOk(cursor, batchSize, |vm|)
    requires |vmX| == |vmXq| == |vm|
    ensures |ValEvalBatch(cursor, batchSize, vm, vmX, vmXq).vmXqLen| == |ValEvalBatch(cursor, batchSize, vm, vmX, vmXq).vm|
    ensures forall i :: 0 <= i < |ValEvalBatch(cursor, batchSize, vm, vmX, vmXq).vm| ==>
      ValEvalBatch(cursor, batchSize, vm, vmX, vmXq).vmXqLen[i] == ValEvalBatch(cursor, batchSize, vm, vmX, vmXq).vm[i].questionLen
  {
    WindowInRange(cursor, batchSize, |vm|);
    var s := Window(cursor, batchSize, |vm|).0;
    var b := ValEvalBatch(cursor, batchSize, vm, vmX, vmXq);
    forall i | 0 <= i < |b.vm| ensures b.vmXqLen[i] == b.vm[i].questionLen {
      assert b.vm[i] == vm[s + i];
      assert b.vmXqLen[i] == RecordQuestionLens(vm)[s + i];
    }
  }

  /** `self.vocab_size + len(self.unknown_classes)`: the id pad_sequences reserves for padding. */
  function PadIdOf(vocabSize: nat, classes: seq<UnknownClass>): nat
  {
    vocabSize + |classes|
  }

  /**
   * createEmbeddingMatrix: `embeddings_index['a']` raises KeyError when 'a'
   * has no vector (None here); otherwise the keys with a vector become the new
   * vocabulary, re-indexed 0 .. k-1 in key order, with one matrix row each.
   * The result holds the new self.vocab, the matrix and the new word index.
   */
  method CreateEmbeddingMatrix(embeddingsIndex: map<Word, Vector>, wordIndexKeys: seq<Word>)
    returns (r: Option<(seq<Word>, seq<Vector>, map<Word, int>)>)
    requires Distinct(wordIndexKeys)
    ensures r.None? <==> "a" !in embeddingsIndex
    ensures r.Some? ==>
      (&& r.value.0 == KeptWords(wordIndexKeys, embeddingsIndex)
       && r.value.1 == Rows(r.value.0, embeddingsIndex)
       && r.value.2 == IndexMap(r.value.0))
  {
    if "a" !in embeddingsIndex {
      return None;
    }
    var matrix: seq<Vector> := [];
    var newWordIndex: map<Word, int> := map[];
    var vocab: seq<Word> := [];
    for k := 0 to |wordIndexKeys|
      invariant vocab == KeptWords(wordIndexKeys[..k], embeddingsIndex)
      invariant matrix == Rows(vocab, embeddingsIndex)
      invariant newWordIndex == IndexMap(vocab)
    {
      var word := wordIndexKeys[k];
      KeepStep(wordIndexKeys, k, embeddingsIndex);
      if word in embeddingsIndex {
        matrix := matrix + [embeddingsIndex[word]];
        newWordIndex := newWordIndex[word := |matrix| - 1];
        vocab := vocab + [word];
      }
    }
    assert wordIndexKeys[..|wordIndexKeys|] == wordIndexKeys;
    r := Some((vocab, matrix, newWordIndex));
  }

  /** The inner loop over unknown_classes for one word outside the index. */
  method Classify(w: Word, wordIndex: map<Word, int>, classes: seq<UnknownClass>) returns (entry: seq<int>)
    ensures entry == TokenEntry(w, wordIndex, classes)
  {
    if w in wordIndex {
      return [wordIndex[w]];
    }
    entry := [];
    var j := 0;
    while j < |classes|
      invariant j <= |classes|
      invariant FirstMatchFrom(classes, w, j) == FirstMatch(classes, w)
    {
      if Matches(classes[j], w) {
        entry := [|wordIndex| + j];
        return;
      }
      j := j + 1;
    }
  }

  /** The loop over the words of one context (or passage): one entry per word that is known or classed. */
  method ContextEntries(ws: seq<Word>, wordIndex: map<Word, int>, classes: seq<UnknownClass>) returns (x: seq<int>)
    ensures x == ContextRow(ws, wordIndex, classes)
  {
    x := [];
    for k := 0 to |ws|
      invariant x == ContextRow(ws[..k], wordIndex, classes)
    {
      assert ws[..k + 1][..k] == ws[..k];
      var e := Classify(ws[k], wordIndex, classes);
      x := x + e;
    }
    assert ws[..|ws|] == ws;
  }

  /** The loop over the question words: known words go to xq, the class of every other word to x. */
  method QuestionEntries(ws: seq<Word>, wordIndex: map<Word, int>, classes: seq<UnknownClass>, x0: seq<int>)
    returns (x: seq<int>, xq: seq<int>)
    ensures x == x0 + QuestionExtras(ws, wordIndex, classes)
    ensures xq == QuestionRow(ws, wordIndex)
  {
    x, xq := x0, [];
    for k := 0 to |ws|
      invariant x == x0 + QuestionExtras(ws[..k], wordIndex, classes)
      invariant xq == QuestionRow(ws[..k], wordIndex)
    {
      assert ws[..k + 1][..k] == ws[..k];
      var w := ws[k];
      if w in wordIndex {
        xq := xq + [wordIndex[w]];
      } else {
        var e := Classify(w, wordIndex, classes);
        x := x + e;
      }
    }
    assert ws[..|ws|] == ws;
  }

  /**
   * vectorizeData: per example the context row x (with the classes of the
   * unknown question words appended, as written) and the question row xq,
   * both padded with padId; the answer indices pass through unchanged.
   */
  method VectorizeData(xContext: seq<seq<Word>>, xQuestion: seq<seq<Word>>, xAnswerBegin: seq<int>, xAnswerEnd: seq<int>,
                       wordIndex: map<Word, int>, contextMaxlen: int, questionMaxlen: int,
                       classes: seq<UnknownClass>, padId: int)
    returns (X: seq<seq<int>>, Xq: seq<seq<int>>, YBegin: seq<int>, YEnd: seq<int>)
    requires |xContext| <= |xQuestion| && |xContext| <= |xAnswerBegin| && |xContext| <= |xAnswerEnd|
    requires TotalLength(xContext) > 0
    ensures |X| == |Xq| == |xContext|
    ensures forall i :: 0 <= i < |xContext| ==>
      X[i] == Padded(VectorizeRecord(xContext[i], xQuestion[i], wordIndex, classes).0, contextMaxlen, padId)
    ensures forall i :: 0 <= i < |xContext| ==>
      Xq[i] == Padded(VectorizeRecord(xContext[i], xQuestion[i], wordIndex, classes).1, questionMaxlen, padId)
    ensures YBegin == xAnswerBegin[..|xContext|] && YEnd == xAnswerEnd[..|xContext|]
  {
    var rows, qrows;
    rows, qrows, YBegin, YEnd := VectorizeRows(xContext, xQuestion, xAnswerBegin, xAnswerEnd, wordIndex, classes);
    X := PadAll(rows, contextMaxlen, padId);
    Xq := PadAll(qrows, questionMaxlen, padId);
  }

  /** The loop of vectorizeData: the unpadded rows of every example and the answer indices. */
  method VectorizeRows(xContext: seq<seq<Word>>, xQuestion: seq<seq<Word>>, xAnswerBegin: seq<int>, xAnswerEnd: seq<int>,
                       wordIndex: map<Word, int>, classes: seq<UnknownClass>)
    returns (rows: seq<seq<int>>, qrows: seq<seq<int>>, YBegin: seq<int>, YEnd: seq<int>)
    requires |xContext| <= |xQuestion| && |xContext| <= |xAnswerBegin| && |xContext| <= |xAnswerEnd|
    ensures |rows| == |qrows| == |xContext|
    ensures forall k :: 0 <= k < |xContext| ==> (rows[k], qrows[k]) == VectorizeRecord(xContext[k], xQuestion[k], wordIndex, classes)
    ensures YBegin == xAnswerBegin[..|xContext|] && YEnd == xAnswerEnd[..|xContext|]
  {
    rows, qrows := [], [];
    YBegin, YEnd := [], [];
    for i := 0 to |xContext|
      invariant |rows| == |qrows| == i
      invariant forall k :: 0 <= k < i ==> (rows[k], qrows[k]) == VectorizeRecord(xContext[k], xQuestion[k], wordIndex, classes)
      invariant YBegin == xAnswerBegin[..i] && YEnd == xAnswerEnd[..i]
    {
      var x, xq := VectorizeOne(xContext[i], xQuestion[i], wordIndex, classes);
      rows := rows + [x];
      qrows := qrows + [xq];
      YBegin := YBegin + [xAnswerBegin[i]];
      YEnd := YEnd + [xAnswerEnd[i]];
    }
  }

  /** The body of the loop of vectorizeData for one example, before padding. */
  method VectorizeOne(context: seq<Word>, question: seq<Word>, wordIndex: map<Word, int>, classes: seq<UnknownClass>)
    returns (x: seq<int>, xq: seq<int>)
    ensures (x, xq) == VectorizeRecord(context, question, wordIndex, classes)
  {
    x := ContextEntries(context, wordIndex, classes);
    x, xq := QuestionEntries(question, wordIndex, classes, x);
  }

  /** `self.pad_sequences(X, maxlen)` on a list of rows: the list's rows are padded in place and returned. */
  method PadAll(rows: seq<seq<int>>, maxlen: int, padId: int) returns (padded: seq<seq<int>>)
    ensures |padded| == |rows|
    ensures forall k :: 0 <= k < |rows| ==> padded[k] == Padded(rows[k], maxlen, padId)
  {
    var a := new seq<int>[|rows|](k requires 0 <= k < |rows| => rows[k]);
    PadRows(a, maxlen, padId);
    padded := a[..];
  }

  /** The padded passage rows of one query: one per passage, each the padded PassageRow. */
  predicate PassagesVectorized(rows: seq<seq<int>>, ps: seq<seq<Word>>, question: seq<Word>, wordIndex: map<Word, int>,
                               classes: seq<UnknownClass>, maxlen: int, padId: int)
  {
    && |rows| == |ps|
    && forall k :: 0 <= k < |ps| ==> rows[k] == Padded(PassageRow(ps, question, k, wordIndex, classes), maxlen, padId)
  }

  /**
   * vectorizeDataMutli: per query one padded row per passage and the padded
   * question row. The unknown question words land in the row of the last
   * passage (the loop variable x still refers to it), so every query must
   * have a passage.
   */
  method VectorizeDataMulti(xContext: seq<seq<seq<Word>>>, xQuestion: seq<seq<Word>>, wordIndex: map<Word, int>,
                            contextMaxlen: int, questionMaxlen: int, classes: seq<UnknownClass>, padId: int)
    returns (X: seq<seq<seq<int>>>, Xq: seq<seq<int>>)
    requires |xContext| <= |xQuestion|
    requires forall i :: 0 <= i < |xContext| ==> |xContext[i]| > 0
    requires TotalPassageLength(xContext) > 0
    ensures |X| == |Xq| == |xContext|
    ensures forall i :: 0 <= i < |xContext| ==>
      PassagesVectorized(X[i], xContext[i], xQuestion[i], wordIndex, classes, contextMaxlen, padId)
    ensures forall i :: 0 <= i < |xContext| ==> Xq[i] == Padded(QuestionRow(xQuestion[i], wordIndex), questionMaxlen, padId)
  {
    var qrows;
    X, qrows := VectorizeQueryRows(xContext, xQuestion, wordIndex, contextMaxlen, classes, padId);
    Xq := PadAll(qrows, questionMaxlen, padId);
  }

  /** The query loop of vectorizeDataMutli: the padded passage rows and the unpadded question rows. */
  method VectorizeQueryRows(xContext: seq<seq<seq<Word>>>, xQuestion: seq<seq<Word>>, wordIndex: map<Word, int>,
                            contextMaxlen: int, classes: seq<UnknownClass>, padId: int)
    returns (X: seq<seq<seq<int>>>, qrows: seq<seq<int>>)
    requires |xContext| <= |xQuestion|
    requires forall i :: 0 <= i < |xContext| ==> |xContext[i]| > 0
    ensures |X| == |qrows| == |xContext|
    ensures forall i :: 0 <= i < |xContext| ==>
      PassagesVectorized(X[i], xContext[i], xQuestion[i], wordIndex, classes, contextMaxlen, padId)
    ensures forall i :: 0 <= i < |xContext| ==> qrows[i] == QuestionRow(xQuestion[i], wordIndex)
  {
    X, qrows := [], [];
    for i := 0 to |xContext|
      invariant |X| == |qrows| == i
      invariant forall m :: 0 <= m < i ==>
        PassagesVectorized(X[m], xContext[m], xQuestion[m], wordIndex, classes, contextMaxlen, padId)
      invariant forall m :: 0 <= m < i ==> qrows[m] == QuestionRow(xQuestion[m], wordIndex)
    {
      var xs, xq := PassageRows(xContext[i], xQuestion[i], wordIndex, classes);
      var padded := PadAll(xs, contextMaxlen, padId);
      X := X + [padded];
      qrows := qrows + [xq];
    }
  }

  /** The passage loop and question loop of vectorizeDataMutli for one query, before padding. */
  method PassageRows(ps: seq<seq<Word>>, question: seq<Word>, wordIndex: map<Word, int>, classes: seq<UnknownClass>)
    returns (xs: seq<seq<int>>, xq: seq<int>)
    requires |ps| > 0
    ensures |xs| == |ps|
    ensures forall k :: 0 <= k < |ps| ==> xs[k] == PassageRow(ps, question, k, wordIndex, classes)
    ensures xq == QuestionRow(question, wordIndex)
  {
    xs := [];
    var x: seq<int> := [];
    for p := 0 to |ps|
      invariant |xs| == p
      invariant forall k :: 0 <= k < p ==> xs[k] == ContextRow(ps[k], wordIndex, classes)
    {
      x := ContextEntries(ps[p], wordIndex, classes);
      xs := xs + [x];
    }
    var last := |ps| - 1;
    ghost var rows := xs;
    x, xq := QuestionEntries(question, wordIndex, classes, xs[last]);
    xs := xs[last := x];
    forall k | 0 <= k < |ps| ensures xs[k] == PassageRow(ps, question, k, wordIndex, classes) {
      if k < last {
        assert xs[k] == rows[k];
      }
    }
  }

  /** The vectors of a list of examples, as the vectorizeData calls of __init__ leave them. */
  predicate ExamplesVectorized(X: seq<seq<int>>, Xq: seq<seq<int>>, YBegin: seq<int>, YEnd: seq<int>, ex: seq<Example>,
                               wordIndex: map<Word, int>, classes: seq<UnknownClass>, maxC: int, maxQ: int, padId: int)
  {
    && |X| == |Xq| == |YBegin| == |YEnd| == |ex|
    && forall i {:trigger X[i]} :: 0 <= i < |ex| ==>
         && X[i] == Padded(VectorizeRecord(ex[i].context, ex[i].question, wordIndex, classes).0, maxC, padId)
         && Xq[i] == Padded(VectorizeRecord(ex[i].context, ex[i].question, wordIndex, classes).1, maxQ, padId)
         && YBegin[i] == ex[i].span.begin && YEnd[i] == ex[i].span.end
  }

  /** The vectorizeData calls of __init__ on the training and validation examples. */
  method VectorizeExamples(ex: seq<Example>, wordIndex: map<Word, int>, maxC: int, maxQ: int,
                           classes: seq<UnknownClass>, padId: int)
    returns (X: seq<seq<int>>, Xq: seq<seq<int>>, YBegin: seq<int>, YEnd: seq<int>)
    requires SomeContext(ex)
    ensures ExamplesVectorized(X, Xq, YBegin, YEnd, ex, wordIndex, classes, maxC, maxQ, padId)
  {
    var e :| e in ex && e.context != [];
    var i :| 0 <= i < |ex| && ex[i] == e;
    TotalLengthPositive(Contexts(ex), i);
    X, Xq, YBegin, YEnd := VectorizeData(Contexts(ex), Questions(ex), Begins(ex), Ends(ex), wordIndex, maxC, maxQ, classes, padId);
  }

  /** The vectors of a list of queries, as the vectorizeDataMutli calls of __init__ leave them. */
  predicate QueriesVectorized(X: seq<seq<seq<int>>>, Xq: seq<seq<int>>, recs: seq<MultiRecord>,
                              wordIndex: map<Word, int>, classes: seq<UnknownClass>, maxC: int, maxQ: int, padId: int)
  {
    && |X| == |Xq| == |recs|
    && forall i {:trigger X[i]} :: 0 <= i < |recs| ==>
         && PassagesVectorized(X[i], recs[i].passages, recs[i].question, wordIndex, classes, maxC, padId)
         && Xq[i] == Padded(QuestionRow(recs[i].question, wordIndex), maxQ, padId)
  }

  /** The vectorizeDataMutli calls of __init__ on the validation and test queries. */
  method VectorizeQueries(recs: seq<MultiRecord>, wordIndex: map<Word, int>, maxC: int, maxQ: int,
                          classes: seq<UnknownClass>, padId: int)
    returns (X: seq<seq<seq<int>>>, Xq: seq<seq<int>>)
    requires forall i :: 0 <= i < |recs| ==> |recs[i].passages| > 0
    requires SomePassage(recs)
    ensures QueriesVectorized(X, Xq, recs, wordIndex, classes, maxC, maxQ, padId)
  {
    var r, ps :| r in recs && ps in r.passages && ps != [];
    var i :| 0 <= i < |recs| && recs[i] == r;
    var k :| 0 <= k < |r.passages| && r.passages[k] == ps;
    TotalPassageLengthPositive(PassageLists(recs), i, k);
    X, Xq := VectorizeDataMulti(PassageLists(recs), RecordQuestions(recs), wordIndex, maxC, maxQ, classes, padId);
  }

  /** The attributes __init__ computes from the data, as one value. */
  datatype Prepared = Prepared(
    unknownClasses: seq<UnknownClass>, vocab: seq<Word>, maxContextSize: nat, maxQuesSize: nat, embeddings: seq<Vector>,
    train: seq<Example>, tX: seq<seq<int>>, tXq: seq<seq<int>>, tYBegin: seq<int>, tYEnd: seq<int>,
    valExamples: seq<Example>, vX: seq<seq<int>>, vXq: seq<seq<int>>, vYBegin: seq<int>, vYEnd: seq<int>,
    vm: seq<MultiRecord>, vmX: seq<seq<seq<int>>>, vmXq: seq<seq<int>>,
    tem: seq<MultiRecord>, temX: seq<seq<seq<int>>>, teXq: seq<seq<int>>)

  /** The lengths that line the vectors up with their examples and records. */
  predicate Shaped(p: Prepared)
  {
    && |p.tX| == |p.tXq| == |p.tYBegin| == |p.tYEnd| == |p.train|
    && |p.vX| == |p.vXq| == |p.vYBegin| == |p.vYEnd| == |p.valExamples|
    && |p.vmX| == |p.vmXq| == |p.vm| && |p.valExamples| <= |p.vm|
    && |p.temX| == |p.teXq| == |p.tem|
  }

  /**
   * What __init__ leaves in its attributes: the splits and maxima of the
   * four datasets, the vocabulary of all of them re-indexed to the words
   * with a GloVe vector and its embedding rows, and every dataset
   * vectorized against that index, padded with vocab_size + len(unknown_classes).
   */
  predicate PreparedFrom(p: Prepared, smartUnk: bool, trainData: seq<Query>, valData: seq<Query>, testData: seq<Query>,
                         embeddingsIndex: map<Word, Vector>, tokenize: Tokenizer)
  {
    && p.unknownClasses == UnknownClasses(smartUnk)
    && SplitsOf(trainData, valData, testData, tokenize, p.train, p.valExamples, p.vm, p.tem, p.maxContextSize, p.maxQuesSize)
    && |p.valExamples| <= |p.vm|
    && p.vocab == KeptWords(BuildVocab(VocabSentences(p.train, p.valExamples, p.vm, p.tem)), embeddingsIndex)
    && StrictlySorted(p.vocab)
    && p.embeddings == Rows(p.vocab, embeddingsIndex)
    && ExamplesVectorized(p.tX, p.tXq, p.tYBegin, p.tYEnd, p.train, IndexMap(p.vocab), p.unknownClasses,
                          p.maxContextSize, p.maxQuesSize, PadIdOf(|p.vocab|, p.unknownClasses))
    && ExamplesVectorized(p.vX, p.vXq, p.vYBegin, p.vYEnd, p.valExamples, IndexMap(p.vocab), p.unknownClasses,
                          p.maxContextSize, p.maxQuesSize, PadIdOf(|p.vocab|, p.unknownClasses))
    && QueriesVectorized(p.vmX, p.vmXq, p.vm, IndexMap(p.vocab), p.unknownClasses,
                         p.maxContextSize, p.maxQuesSize, PadIdOf(|p.vocab|, p.unknownClasses))
    && QueriesVectorized(p.temX, p.teXq, p.tem, IndexMap(p.vocab), p.unknownClasses,
                         p.maxContextSize, p.maxQuesSize, PadIdOf(|p.vocab|, p.unknownClasses))
  }

  /**
   * The body of __init__ after the files are read: split the four datasets,
   * build the re-indexed vocabulary, vectorize. createEmbeddingMatrix's
   * KeyError and vectorizeDataMutli's use of the last passage row need a
   * vector for 'a' and a passage in every validation and test query; the
   * 'Percentage Unknown' statistic of vectorizeData and vectorizeDataMutli
   * divides by the total context length of each of the four datasets.
   */
  method Prepare(smartUnk: bool, trainData: seq<Query>, valData: seq<Query>, testData: seq<Query>,
                 embeddingsIndex: map<Word, Vector>, tokenize: Tokenizer) returns (p: Prepared)
    requires "a" in embeddingsIndex
    requires forall q :: q in valData ==> |q.passages| > 0
    requires forall q :: q in testData ==> |q.passages| > 0
    requires SomeContext(SplitRecords(trainData, tokenize).examples)
    requires SomeContext(SplitRecords(valData, tokenize).examples)
    requires SomePassageText(valData, tokenize) && SomePassageText(testData, tokenize)
    ensures PreparedFrom(p, smartUnk, trainData, valData, testData, embeddingsIndex, tokenize)
    ensures Shaped(p)
  {
    var classes := UnknownClasses(smartUnk);
    var tEx, vEx, vmRecs, teRecs, maxC, maxQ := SplitDatasets(trainData, valData, testData, tokenize);
    TestRecordsPassages(valData, tokenize);
    TestRecordsPassages(testData, tokenize);
    TestRecordsSomePassage(valData, tokenize);
    TestRecordsSomePassage(testData, tokenize);
    var kept, matrix, wordIndex := BuildIndex(tEx, vEx, vmRecs, teRecs, embeddingsIndex);
    var padId := PadIdOf(|kept|, classes);
    var tx, txq, tyBegin, tyEnd := VectorizeExamples(tEx, wordIndex, maxC, maxQ, classes, padId);
    var vx, vxq, vyBegin, vyEnd := VectorizeExamples(vEx, wordIndex, maxC, maxQ, classes, padId);
    var vmx, vmxq := VectorizeQueries(vmRecs, wordIndex, maxC, maxQ, classes, padId);
    var temx, texq := VectorizeQueries(teRecs, wordIndex, maxC, maxQ, classes, padId);
    p := Prepared(classes, kept, maxC, maxQ, matrix, tEx, tx, txq, tyBegin, tyEnd, vEx, vx, vxq, vyBegin, vyEnd,
                  vmRecs, vmx, vmxq, teRecs, temx, texq);
  }

  /**
   * __init__ with the JSON and GloVe files already read: the datasets are
   * prepared, then stored in a fresh object. The preconditions are those of Prepare.
   */
  method NewData(config: Config, trainData: seq<Query>, valData: seq<Query>, testData: seq<Query>,
                 embeddingsIndex: map<Word, Vector>, tokenize: Tokenizer) returns (d: Data)
    requires "a" in embeddingsIndex
    requires forall q :: q in valData ==> |q.passages| > 0
    requires forall q :: q in testData ==> |q.passages| > 0
    requires SomeContext(SplitRecords(trainData, tokenize).examples)
    requires SomeContext(SplitRecords(valData, tokenize).examples)
    requires SomePassageText(valData, tokenize) && SomePassageText(testData, tokenize)
    ensures fresh(d) && d.Valid()
    ensures d.batchSize == config.batchSize && d.keepProb == config.keepProb && d.valBatchNum == 0 && d.testBatchNum == 0
    ensures d.vocabSize == |d.vocab| && d.PadId() == |d.vocab| + |d.unknownClasses|
    ensures PreparedFrom(d.Snapshot(), config.smartUnk, trainData, valData, testData, embeddingsIndex, tokenize)
  {
    var p := Prepare(config.smartUnk, trainData, valData, testData, embeddingsIndex, tokenize);
    d := new Data(config, p);
  }

  class Data {
    var batchSize: nat
    var keepProb: real
    var valBatchNum: nat
    var testBatchNum: nat
    var unknownClasses: seq<UnknownClass>
    var vocab: seq<Word>
    var vocabSize: nat
    var maxContextSize: nat
    var maxQuesSize: nat
    var embeddings: seq<Vector>
    // Training and validation examples (the t*/v* parallel lists) and their vectors.
    var train: seq<Example>
    var tX: seq<seq<int>>
    var tXq: seq<seq<int>>
    var tYBegin: seq<int>
    var tYEnd: seq<int>
    var valExamples: seq<Example>
    var vX: seq<seq<int>>
    var vXq: seq<seq<int>>
    var vYBegin: seq<int>
    var vYEnd: seq<int>
    // Every validation and test query with all of its passages (vm*/tem*/te*) and their vectors.
    var vm: seq<MultiRecord>
    var vmX: seq<seq<seq<int>>>
    var vmXq: seq<seq<int>>
    var tem: seq<MultiRecord>
    var temX: seq<seq<seq<int>>>
    var teXq: seq<seq<int>>

    /** The parallel lists agree in length and both cursors are in range. */
    predicate Valid()
      reads this
    {
      && |tX| == |tXq| == |tYBegin| == |tYEnd| == |train|
      && |vX| == |vXq| == |vYBegin| == |vYEnd| == |valExamples|
      && |vmX| == |vmXq| == |vm| && |vX| <= |vm|
      && |temX| == |teXq| == |tem|
      && (batchSize > 0 ==> CursorOk(valBatchNum, batchSize, |vX|) && CursorOk(testBatchNum, batchSize, |temX|))
    }

    /** The attributes as one value. */
    function Snapshot(): Prepared
      reads this
    {
      Prepared(unknownClasses, vocab, maxContextSize, maxQuesSize, embeddings, train, tX, tXq, tYBegin, tYEnd,
               valExamples, vX, vXq, vYBegin, vYEnd, vm, vmX, vmXq, tem, temX, teXq)
    }

    /** The attribute assignments of __init__, from the prepared datasets; both cursors start at 0. */
    constructor(config: Config, p: Prepared)
      requires Shaped(p)
      ensures Valid()
      ensures batchSize == config.batchSize && keepProb == config.keepProb && valBatchNum == 0 && testBatchNum == 0
      ensures vocabSize == |vocab| && PadId() == |vocab| + |unknownClasses|
      ensures Snapshot() == p
    {
      batchSize, keepProb := config.batchSize, config.keepProb;
      valBatchNum, testBatchNum := 0, 0;
      unknownClasses, vocab, vocabSize, embeddings := p.unknownClasses, p.vocab, |p.vocab|, p.embeddings;
      maxContextSize, maxQuesSize := p.maxContextSize, p.maxQuesSize;
      train, tX, tXq, tYBegin, tYEnd := p.train, p.tX, p.tXq, p.tYBegin, p.tYEnd;
      valExamples, vX, vXq, vYBegin, vYEnd := p.valExamples, p.vX, p.vXq, p.vYBegin, p.vYEnd;
      vm, vmX, vmXq, tem, temX, teXq := p.vm, p.vmX, p.vmXq, p.tem, p.temX, p.teXq;
    }

    /** `self.vocab_size + len(self.unknown_classes)`, reserved for padding. */
    function PadId(): int
      reads this
    {
      PadIdOf(vocabSize, unknownClasses)
    }

    /** getNumTrainBatches: `ceil(len(tX) / batch_size)`. */
    function NumTrainBatches(): nat
      reads this
      requires batchSize > 0
    {
      NumBatches(|tX|, batchSize)
    }

    /** getNumValBatches: `ceil(len(vX) / batch_size)`. */
    function NumValBatches(): nat
      reads this
      requires batchSize > 0
    {
      NumBatches(|vX|, batchSize)
    }

    /** getNumTestBatches: `ceil(len(temX) / batch_size)`. */
    function NumTestBatches(): nat
      reads this
      requires batchSize > 0
    {
      NumBatches(|temX|, batchSize)
    }

    /**
     * getValBatch as written: the window is bounded by the number of
     * validation examples len(vX), but it selects from the per-query vm*
     * lists and takes the question lengths from vXqLen.
     */
    method GetValBatch() returns (batch: ValBatch)
      requires Valid() && batchSize > 0
      modifies this`valBatchNum
      ensures Valid()
      ensures valBatchNum == Advance(old(valBatchNum), batchSize, |vX|)
      ensures var (s, e) := Window(old(valBatchNum), batchSize, |vX|);
        s <= e <= |vX| && batch == ValBatch(vm[s..e], vmX[s..e], vmXq[s..e], QuestionLens(valExamples)[s..e])
    {
      WindowInRange(valBatchNum, batchSize, |vX|);
      var start := valBatchNum * batchSize;
      var end := Min(|vX|, (valBatchNum + 1) * batchSize);
      batch := ValBatch(vm[start..end], vmX[start..end], vmXq[start..end], QuestionLens(valExamples)[start..end]);
      valBatchNum := valBatchNum + 1;
      if valBatchNum >= NumValBatches() {
        valBatchNum := 0;
      }
      AdvanceKeepsCursorOk(old(valBatchNum), batchSize, |vX|);
    }

    /** getTestBatch: the window over len(temX), then the cursor moves on and wraps. */
    method GetTestBatch() returns (batch: TestBatch)
      requires Valid() && batchSize > 0
      modifies this`testBatchNum
      ensures Valid()
      ensures testBatchNum == Advance(old(testBatchNum), batchSize, |temX|)
      ensures var (s, e) := Window(old(testBatchNum), batchSize, |temX|);
        s <= e <= |temX| && batch == TestBatch(tem[s..e], temX[s..e], teXq[s..e])
    {
      WindowInRange(testBatchNum, batchSize, |temX|);
      var start := testBatchNum * batchSize;
      var end := Min(|temX|, (testBatchNum + 1) * batchSize);
      batch := TestBatch(tem[start..end], temX[start..end], teXq[start..end]);
      testBatchNum := testBatchNum + 1;
      if testBatchNum >= NumTestBatches() {
        testBatchNum := 0;
      }
      AdvanceKeepsCursorOk(old(testBatchNum), batchSize, |temX|);
    }
  }
}
