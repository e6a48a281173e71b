// The Data class of data_multi.py: the vocabulary over the concatenated
// contexts and the questions, indexed from 1 so that 0 is left for padding;
// the vectors of every example padded with 0; the per-token passage weights;
// the embedding matrix with its <PAD> row; and the cyclic cursor of getValBatch.

module DataMulti {
  import opened Tokens
  import opened Vocabulary
  import opened Msmarco
  import opened SplitMulti
  import opened Padding
  import opened Batching
  import opened Detokenize
  import opened Relevance
  import DataSingle

  /** The fields of the command-line config the class reads. */
  datatype Config = Config(batchSize: nat, keepProb: real)

  /** `dict((c, i + 1) for i, c in enumerate(vocab))`: the indices start at 1, 0 is reserved for masking. */
  function WordIndex(vocab: seq<Word>): (m: map<Word, int>)
    ensures forall w :: w in m <==> w in vocab
  {
    if vocab == [] then map[] else WordIndex(vocab[..|vocab| - 1])[vocab[|vocab| - 1] := |vocab|]
  }

  /** Each word's index is one more than its 0-based place in the dense map of DataSingle. */
  lemma {:induction false} WordIndexShifted(vocab: seq<Word>)
    ensures forall w :: w in WordIndex(vocab) ==> WordIndex(vocab)[w] == DataSingle.IndexMap(vocab)[w] + 1
  {
    if vocab != [] {
      WordIndexShifted(vocab[..|vocab| - 1]);
    }
  }

  /**
   * Over the (distinct) sorted vocabulary the index is a bijection onto
   * 1..len(vocab): vocab[k] gets k + 1, every index lies in 1..len(vocab) and
   * gives its word back, and the dict holds len(vocab) words, so
   * vocab_size = len(vocab) + 1 counts them and the reserved 0.
   */
  lemma WordIndexDense(vocab: seq<Word>)
    requires DataSingle.Distinct(vocab)
    ensures |WordIndex(vocab)| == |vocab|
    ensures forall k :: 0 <= k < |vocab| ==> WordIndex(vocab)[vocab[k]] == k + 1
    ensures forall w :: w in WordIndex(vocab) ==>
      1 <= WordIndex(vocab)[w] <= |vocab| && vocab[WordIndex(vocab)[w] - 1] == w
  {
    WordIndexShifted(vocab);
    DataSingle.IndexMapDense(vocab);
    assert WordIndex(vocab).Keys == DataSingle.IndexMap(vocab).Keys;
  }

  /** Every word of ws has an index (otherwise `word_index[w]` raises KeyError). */
  predicate Covered(ws: seq<Word>, wordIndex: map<Word, int>)
  {
    forall w :: w in ws ==> w in wordIndex
  }

  /** `[word_index[w] for w in words]`. */
  function IndexRow(ws: seq<Word>, wordIndex: map<Word, int>): (x: seq<int>)
    requires Covered(ws, wordIndex)
    ensures |x| == |ws| && forall k :: 0 <= k < |ws| ==> x[k] == wordIndex[ws[k]]
  {
    seq(|ws|, k requires 0 <= k < |ws| => wordIndex[ws[k]])
  }

  /**
   * A padded row of word indices decodes back to its words: a place holds 0
   * exactly when it is padding, and every other place holds the index of the
   * word there, so the pad id never collides with a word.
   */
  lemma PaddedRowDecodes(ws: seq<Word>, vocab: seq<Word>, maxlen: int)
    requires DataSingle.Distinct(vocab) && Covered(ws, WordIndex(vocab))
    ensures forall k :: 0 <= k < |Padded(IndexRow(ws, WordIndex(vocab)), maxlen, 0)| ==>
      (Padded(IndexRow(ws, WordIndex(vocab)), maxlen, 0)[k] == 0 <==> k >= |ws|)
    ensures forall k :: 0 <= k < |ws| ==>
      var i := Padded(IndexRow(ws, WordIndex(vocab)), maxlen, 0)[k];
      1 <= i <= |vocab| && vocab[i - 1] == ws[k]
  {
    WordIndexDense(vocab);
    var row := IndexRow(ws, WordIndex(vocab));
    var p := Padded(row, maxlen, 0);
    forall k | 0 <= k < |ws| ensures p[k] == row[k] && row[k] == WordIndex(vocab)[ws[k]] {
      assert p[..|row|][k] == row[k];
    }
  }

  /**
   * vectorizeData: per example the index rows of the context and the
   * question, padded with 0 to the maximum sizes, the begin index as it is
   * and the end index minus one.
   */
  method VectorizeData(xContext: seq<seq<Word>>, xQuestion: seq<seq<Word>>, xAnswerBegin: seq<int>, xAnswerEnd: seq<int>,
                       wordIndex: map<Word, int>, maxContextSize: int, maxQuesSize: int)
    returns (X: seq<seq<int>>, Xq: seq<seq<int>>, YBegin: seq<int>, YEnd: seq<int>)
    requires |xContext| <= |xQuestion| && |xContext| <= |xAnswerBegin| && |xContext| <= |xAnswerEnd|
    requires forall i :: 0 <= i < |xContext| ==> Covered(xContext[i], wordIndex) && Covered(xQuestion[i], wordIndex)
    ensures |X| == |Xq| == |YBegin| == |YEnd| == |xContext|
    ensures forall i :: 0 <= i < |xContext| ==> X[i] == Padded(IndexRow(xContext[i], wordIndex), maxContextSize, 0)
    ensures forall i :: 0 <= i < |xContext| ==> Xq[i] == Padded(IndexRow(xQuestion[i], wordIndex), maxQuesSize, 0)
    ensures forall i :: 0 <= i < |xContext| ==> YBegin[i] == xAnswerBegin[i] && YEnd[i] == xAnswerEnd[i] - 1
  {
    var rows: seq<seq<int>> := [];
    var qrows: seq<seq<int>> := [];
    YBegin, YEnd := [], [];
    for i := 0 to |xContext|
      invariant |rows| == |qrows| == |YBegin| == |YEnd| == i
      invariant forall k :: 0 <= k < i ==> rows[k] == IndexRow(xContext[k], wordIndex)
      invariant forall k :: 0 <= k < i ==> qrows[k] == IndexRow(xQuestion[k], wordIndex)
      invariant forall k :: 0 <= k < i ==> YBegin[k] == xAnswerBegin[k] && YEnd[k] == xAnswerEnd[k] - 1
    {
      rows := rows + [IndexRow(xContext[i], wordIndex)];
      qrows := qrows + [IndexRow(xQuestion[i], wordIndex)];
      YBegin := YBegin + [xAnswerBegin[i]];
      YEnd := YEnd + [xAnswerEnd[i] - 1];
    }
    X := DataSingle.PadAll(rows, maxContextSize, 0);
    Xq := DataSingle.PadAll(qrows, maxQuesSize, 0);
  }

  /** The parallel lists of splitMsmarcoDatasets, projected from the examples. */
  function Contexts(ex: seq<MultiExample>): (r: seq<seq<Word>>)
    ensures |r| == |ex| && forall i :: 0 <= i < |ex| ==> r[i] == ex[i].context
  {
    seq(|ex|, i requires 0 <= i < |ex| => ex[i].context)
  }

  function Questions(ex: seq<MultiExample>): (r: seq<seq<Word>>)
    ensures |r| == |ex| && forall i :: 0 <= i < |ex| ==> r[i] == ex[i].question
  {
    seq(|ex|, i requires 0 <= i < |ex| => ex[i].question)
  }

  function QuestionIds(ex: seq<MultiExample>): (r: seq<int>)
    ensures |r| == |ex| && forall i :: 0 <= i < |ex| ==> r[i] == ex[i].questionId
  {
    seq(|ex|, i requires 0 <= i < |ex| => ex[i].questionId)
  }

  function Begins(ex: seq<MultiExample>): (r: seq<int>)
    ensures |r| == |ex| && forall i :: 0 <= i < |ex| ==> r[i] == ex[i].answerBegin
  {
    seq(|ex|, i requires 0 <= i < |ex| => ex[i].answerBegin)
  }

  function Ends(ex: seq<MultiExample>): (r: seq<int>)
    ensures |r| == |ex| && forall i :: 0 <= i < |ex| ==> r[i] == ex[i].answerEnd
  {
    seq(|ex|, i requires 0 <= i < |ex| => ex[i].answerEnd)
  }

  function PassageLengthLists(ex: seq<MultiExample>): (r: seq<seq<nat>>)
    ensures |r| == |ex| && forall i :: 0 <= i < |ex| ==> r[i] == ex[i].passageLengths
  {
    seq(|ex|, i requires 0 <= i < |ex| => ex[i].passageLengths)
  }

  /** `self.tContext + self.tQuestion + self.vContext + self.vQuestion`, the sentences of buildVocab. */
  function Sentences(train: seq<MultiExample>, val: seq<MultiExample>): seq<seq<Word>>
  {
    Contexts(train) + Questions(train) + Contexts(val) + Questions(val)
  }

  /**
   * The vocabulary is built over every context and question of both splits,
   * so vectorizeData never looks up a missing word.
   */
  lemma VocabCoversTokens(train: seq<MultiExample>, val: seq<MultiExample>)
    ensures forall i :: 0 <= i < |train| ==>
      Covered(train[i].context, WordIndex(BuildVocab(Sentences(train, val)))) &&
      Covered(train[i].question, WordIndex(BuildVocab(Sentences(train, val))))
    ensures forall i :: 0 <= i < |val| ==>
      Covered(val[i].context, WordIndex(BuildVocab(Sentences(train, val)))) &&
      Covered(val[i].question, WordIndex(BuildVocab(Sentences(train, val))))
  {
    var s := Sentences(train, val);
    var m := WordIndex(BuildVocab(s));
    var t, v := |train|, |val|;
    forall i, w | 0 <= i < t && w in train[i].context ensures w in m {
      assert s[i] == train[i].context;
      assert OccursIn(w, s);
    }
    forall i, w | 0 <= i < t && w in train[i].question ensures w in m {
      assert s[t + i] == train[i].question;
      assert OccursIn(w, s);
    }
    forall i, w | 0 <= i < v && w in val[i].context ensures w in m {
      assert s[2 * t + i] == val[i].context;
      assert OccursIn(w, s);
    }
    forall i, w | 0 <= i < v && w in val[i].question ensures w in m {
      assert s[2 * t + v + i] == val[i].question;
      assert OccursIn(w, s);
    }
  }

  /** The vectors of a list of examples, as the vectorizeData call of __init__ leaves them. */
  predicate Vectorized(X: seq<seq<int>>, Xq: seq<seq<int>>, YBegin: seq<int>, YEnd: seq<int>, ex: seq<MultiExample>,
                       wordIndex: map<Word, int>, maxContextSize: int, maxQuesSize: int)
  {
    && |X| == |Xq| == |YBegin| == |YEnd| == |ex|
    && forall i :: 0 <= i < |ex| ==>
         && Covered(ex[i].context, wordIndex) && Covered(ex[i].question, wordIndex)
         && X[i] == Padded(IndexRow(ex[i].context, wordIndex), maxContextSize, 0)
         && Xq[i] == Padded(IndexRow(ex[i].question, wordIndex), maxQuesSize, 0)
         && YBegin[i] == ex[i].answerBegin && YEnd[i] == ex[i].answerEnd - 1
  }

  /** The vectorizeData call of __init__ on one split. */
  method VectorizeExamples(ex: seq<MultiExample>, wordIndex: map<Word, int>, maxContextSize: int, maxQuesSize: int)
    returns (X: seq<seq<int>>, Xq: seq<seq<int>>, YBegin: seq<int>, YEnd: seq<int>)
    requires forall i :: 0 <= i < |ex| ==> Covered(ex[i].context, wordIndex) && Covered(ex[i].question, wordIndex)
    ensures Vectorized(X, Xq, YBegin, YEnd, ex, wordIndex, maxContextSize, maxQuesSize)
  {
    X, Xq, YBegin, YEnd := VectorizeData(Contexts(ex), Questions(ex), Begins(ex), Ends(ex), wordIndex, maxContextSize, maxQuesSize);
  }

  /** The relevance scores and token weights of a list of examples, as __init__ leaves them. */
  predicate Weighted(passRel: seq<seq<real>>, passWeights: seq<seq<real>>, ex: seq<MultiExample>,
                     score: (string, seq<string>) -> seq<real>, maxLen: int)
  {
    && |passRel| == |passWeights| == |ex|
    && forall i :: 0 <= i < |ex| ==>
         && passRel[i] == score(JoinWords(ex[i].question), JoinEach(Slices(ex[i].context, ex[i].passageLengths)))
         && passWeights[i] == PassWeight(passRel[i], ex[i].passageLengths, maxLen)
  }

  /** The passageRevelevance and passageWeight calls of __init__ on one split. */
  method WeighExamples(ex: seq<MultiExample>, score: (string, seq<string>) -> seq<real>, maxLen: int)
    returns (passRel: seq<seq<real>>, passWeights: seq<seq<real>>)
    ensures Weighted(passRel, passWeights, ex, score, maxLen)
  {
    passRel := PassageRelevance(Contexts(ex), Questions(ex), PassageLengthLists(ex), score);
    passWeights := PassageWeight(passRel, PassageLengthLists(ex), maxLen);
  }

  /**
   * Every example of a split fits the split's maxima, and its passage lengths
   * add up to its context's length.
   */
  lemma ExamplesFit(records: seq<Query>, tokenize: Tokenizer)
    ensures forall i :: 0 <= i < |SplitRecordsMulti(records, tokenize).examples| ==>
      var e := SplitRecordsMulti(records, tokenize).examples[i];
      && |e.context| <= SplitRecordsMulti(records, tokenize).maxLenContext
      && |e.question| <= SplitRecordsMulti(records, tokenize).maxLenQuestion
      && Sum(e.passageLengths) == |e.context|
  {
    var t := SplitRecordsMulti(records, tokenize);
    SplitRecordsMultiMaxima(records, tokenize);
    forall i | 0 <= i < |t.examples|
      ensures |t.examples[i].context| <= t.maxLenContext && |t.examples[i].question| <= t.maxLenQuestion
      ensures Sum(t.examples[i].passageLengths) == |t.examples[i].context|
    {
      var r := ExampleSource(records, tokenize, i);
    }
  }

  /**
   * With examples that fit the maxima, every context row, every weight row
   * is exactly max_context_size long and every question row max_ques_size:
   * the batches are rectangular, and each weight lines up with a token of X.
   */
  lemma RowsRectangular(ex: seq<MultiExample>, X: seq<seq<int>>, Xq: seq<seq<int>>, YBegin: seq<int>, YEnd: seq<int>,
                        passRel: seq<seq<real>>, passWeights: seq<seq<real>>, wordIndex: map<Word, int>,
                        score: (string, seq<string>) -> seq<real>, maxContextSize: nat, maxQuesSize: nat)
    requires forall i :: 0 <= i < |ex| ==>
      |ex[i].context| <= maxContextSize && |ex[i].question| <= maxQuesSize && Sum(ex[i].passageLengths) == |ex[i].context|
    requires Vectorized(X, Xq, YBegin, YEnd, ex, wordIndex, maxContextSize, maxQuesSize)
    requires Weighted(passRel, passWeights, ex, score, maxContextSize)
    ensures forall i :: 0 <= i < |ex| ==>
      |X[i]| == maxContextSize && |Xq[i]| == maxQuesSize && |passWeights[i]| == maxContextSize
  {
    forall i | 0 <= i < |ex|
      ensures |passWeights[i]| == maxContextSize
    {
      SpreadLength(passRel[i], ex[i].passageLengths, Min(|passRel[i]|, |ex[i].passageLengths|));
      PrefixSumsGrow(ex[i].passageLengths, Min(|passRel[i]|, |ex[i].passageLengths|), |ex[i].passageLengths|);
      assert ex[i].passageLengths[..|ex[i].passageLengths|] == ex[i].passageLengths;
    }
  }

  /** `np.zeros(dim)`. */
  function Zeros(dim: nat): (v: DataSingle.Vector)
    ensures |v| == dim && forall k :: 0 <= k < dim ==> v[k] == 0.0
  {
    Repeat(0.0, dim)
  }

  /**
   * Row i of the matrix createEmbeddingMatrix returns: row 0 is the <PAD>
   * row, row i >= 1 the vector of the word with index i, zeros when it has none.
   */
  function MatrixRow(vocab: seq<Word>, embeddingsIndex: map<Word, DataSingle.Vector>, dim: nat, i: nat): DataSingle.Vector
    requires i <= |vocab|
  {
    if i == 0 || vocab[i - 1] !in embeddingsIndex then Zeros(dim) else embeddingsIndex[vocab[i - 1]]
  }

  /**
   * The row of a word's index holds its vector, or zeros when GloVe has none,
   * and with vectors of one width every row is dim wide.
   */
  lemma MatrixRowOfWord(vocab: seq<Word>, embeddingsIndex: map<Word, DataSingle.Vector>, dim: nat, w: Word)
    requires DataSingle.Distinct(vocab) && w in vocab
    requires forall u :: u in embeddingsIndex ==> |embeddingsIndex[u]| == dim
    ensures 1 <= WordIndex(vocab)[w] <= |vocab|
    ensures MatrixRow(vocab, embeddingsIndex, dim, WordIndex(vocab)[w]) == if w in embeddingsIndex then embeddingsIndex[w] else Zeros(dim)
    ensures |MatrixRow(vocab, embeddingsIndex, dim, WordIndex(vocab)[w])| == dim
  {
    WordIndexDense(vocab);
  }

  /** The matrix createEmbeddingMatrix returns for the vocabulary. */
  predicate EmbeddingMatrixOf(m: seq<DataSingle.Vector>, vocab: seq<Word>, embeddingsIndex: map<Word, DataSingle.Vector>, dim: nat)
  {
    && |m| == |vocab| + 1
    && forall i :: 0 <= i <= |vocab| ==> m[i] == MatrixRow(vocab, embeddingsIndex, dim, i)
  }

  /**
   * createEmbeddingMatrix: `embeddings_index['a']` raises KeyError when 'a'
   * has no vector (None here); otherwise a zero matrix of len(word_index) + 1
   * rows of the width of 'a', whose row word_index[w] is overwritten with w's
   * vector for every word that has one. The dict's keys are distinct, and
   * numpy refuses a row of another width, so every vector has that width.
   */
  method CreateEmbeddingMatrix(embeddingsIndex: map<Word, DataSingle.Vector>, vocab: seq<Word>)
    returns (r: Option<seq<DataSingle.Vector>>)
    requires DataSingle.Distinct(vocab)
    requires "a" in embeddingsIndex ==> forall w :: w in embeddingsIndex ==> |embeddingsIndex[w]| == |embeddingsIndex["a"]|
    ensures r.None? <==> "a" !in embeddingsIndex
    ensures r.Some? ==> EmbeddingMatrixOf(r.value, vocab, embeddingsIndex, |embeddingsIndex["a"]|)
  {
    if "a" !in embeddingsIndex {
      return None;
    }
    var dim := |embeddingsIndex["a"]|;
    var matrix := seq(|vocab| + 1, _ => Zeros(dim));
    for k := 0 to |vocab|
      invariant |matrix| == |vocab| + 1
      invariant forall i :: 0 <= i <= k ==> matrix[i] == MatrixRow(vocab, embeddingsIndex, dim, i)
      invariant forall i :: k < i <= |vocab| ==> matrix[i] == Zeros(dim)
    {
      // The items of word_index in order: word vocab[k] has index k + 1 (WordIndexDense).
      var word, i := vocab[k], k + 1;
      if word in embeddingsIndex {
        matrix := matrix[i := embeddingsIndex[word]];
      }
    }
    r := Some(matrix);
  }

  /** What getValBatch returns: the served window of each validation list. */
  datatype ValBatch = ValBatch(vContext: seq<seq<Word>>, vQuestionId: seq<int>, vX: seq<seq<int>>, vXq: seq<seq<int>>,
                               vYBegin: seq<int>, vYEnd: seq<int>, vPassWeights: seq<seq<real>>)

  /** The window `[n * bs, min(len(vX), (n + 1) * bs))` of every validation list. */
  function ValWindow(cursor: nat, batchSize: nat, ex: seq<MultiExample>, vX: seq<seq<int>>, vXq: seq<seq<int>>,
                     vYBegin: seq<int>, vYEnd: seq<int>, vPassWeights: seq<seq<real>>): ValBatch
    requires batchSize > 0 && CursorOk(cursor, batchSize, |vX|)
    requires |vX| == |vXq| == |vYBegin| == |vYEnd| == |vPassWeights| == |ex|
  {
    WindowInRange(cursor, batchSize, |vX|);
    var (s, e) := Window(cursor, batchSize, |vX|);
    ValBatch(Contexts(ex)[s..e], QuestionIds(ex)[s..e], vX[s..e], vXq[s..e], vYBegin[s..e], vYEnd[s..e], vPassWeights[s..e])
  }

  /** Entry j of a batch is example e: its context, id, vectors, indices and weights. */
  predicate EntryOf(b: ValBatch, j: nat, e: MultiExample, rel: seq<real>, wordIndex: map<Word, int>,
                    maxContextSize: int, maxQuesSize: int)
  {
    && j < |b.vContext| && j < |b.vQuestionId| && j < |b.vX| && j < |b.vXq|
    && j < |b.vYBegin| && j < |b.vYEnd| && j < |b.vPassWeights|
    && Covered(e.context, wordIndex) && Covered(e.question, wordIndex)
    && b.vContext[j] == e.context && b.vQuestionId[j] == e.questionId
    && b.vX[j] == Padded(IndexRow(e.context, wordIndex), maxContextSize, 0)
    && b.vXq[j] == Padded(IndexRow(e.question, wordIndex), maxQuesSize, 0)
    && b.vYBegin[j] == e.answerBegin && b.vYEnd[j] == e.answerEnd - 1
    && b.vPassWeights[j] == PassWeight(rel, e.passageLengths, maxContextSize)
  }

  /**
   * Every list of a batch is cut at the same window, so entry j of each
   * belongs to the example at the window's start plus j: its vectors,
   * indices and weights are those of the context and question id served
   * beside them.
   */
  lemma ValWindowAligned(cursor: nat, batchSize: nat, ex: seq<MultiExample>, vX: seq<seq<int>>, vXq: seq<seq<int>>,
                         vYBegin: seq<int>, vYEnd: seq<int>, vPassRel: seq<seq<real>>, vPassWeights: seq<seq<real>>,
                         wordIndex: map<Word, int>, score: (string, seq<string>) -> seq<real>, maxContextSize: int, maxQuesSize: int)
    requires batchSize > 0 && CursorOk(cursor, batchSize, |vX|)
    requires Vectorized(vX, vXq, vYBegin, vYEnd, ex, wordIndex, maxContextSize, maxQuesSize)
    requires Weighted(vPassRel, vPassWeights, ex, score, maxContextSize)
    ensures var (s, e) := Window(cursor, batchSize, |vX|);
      && s <= e <= |ex|
      && |ValWindow(cursor, batchSize, ex, vX, vXq, vYBegin, vYEnd, vPassWeights).vContext| == e - s
      && forall i :: s <= i < e ==>
           EntryOf(ValWindow(cursor, batchSize, ex, vX, vXq, vYBegin, vYEnd, vPassWeights), i - s, ex[i], vPassRel[i],
                   wordIndex, maxContextSize, maxQuesSize)
  {
    WindowInRange(cursor, batchSize, |vX|);
    var (s, e) := Window(cursor, batchSize, |vX|);
    var b := ValWindow(cursor, batchSize, ex, vX, vXq, vYBegin, vYEnd, vPassWeights);
    forall i | s <= i < e
      ensures EntryOf(b, i - s, ex[i], vPassRel[i], wordIndex, maxContextSize, maxQuesSize)
    {
      ValWindowEntry(cursor, batchSize, ex, vX, vXq, vYBegin, vYEnd, vPassWeights, i);
    }
  }

  /** Entry i - start of each list of the batch is entry i of the list it is cut from. */
  lemma ValWindowEntry(cursor: nat, batchSize: nat, ex: seq<MultiExample>, vX: seq<seq<int>>, vXq: seq<seq<int>>,
                       vYBegin: seq<int>, vYEnd: seq<int>, vPassWeights: seq<seq<real>>, i: nat)
    requires batchSize > 0 && CursorOk(cursor, batchSize, |vX|)
    requires |vX| == |vXq| == |vYBegin| == |vYEnd| == |vPassWeights| == |ex|
    requires Window(cursor, batchSize, |vX|).0 <= i < Window(cursor, batchSize, |vX|).1
    ensures var b := ValWindow(cursor, batchSize, ex, vX, vXq, vYBegin, vYEnd, vPassWeights);
      var j := i - Window(cursor, batchSize, |vX|).0;
      && i < |ex| && j < |b.vContext| == |b.vQuestionId| == |b.vX| == |b.vXq| == |b.vYBegin| == |b.vYEnd| == |b.vPassWeights|
      && b.vContext[j] == ex[i].context && b.vQuestionId[j] == ex[i].questionId
      && b.vX[j] == vX[i] && b.vXq[j] == vXq[i] && b.vYBegin[j] == vYBegin[i] && b.vYEnd[j] == vYEnd[i]
      && b.vPassWeights[j] == vPassWeights[i]
  {
    WindowInRange(cursor, batchSize, |vX|);
    var (s, e) := Window(cursor, batchSize, |vX|);
    var b := ValWindow(cursor, batchSize, ex, vX, vXq, vYBegin, vYEnd, vPassWeights);
    assert b.vContext == Contexts(ex)[s..e] && b.vQuestionId == QuestionIds(ex)[s..e];
  }

  class Data {
    var batchSize: nat
    var keepProb: real
    var valBatchNum: nat
    // The examples of the two splits (the t*/v* parallel lists of splitMsmarcoDatasets) and their maxima.
    var train: seq<MultiExample>
    var valExamples: seq<MultiExample>
    var maxLenTContext: nat
    var maxLenTQuestion: nat
    var maxLenVContext: nat
    var maxLenVQuestion: nat
    var tPassRel: seq<seq<real>>
    var vPassRel: seq<seq<real>>
    // The vocabulary is a local of __init__; it is kept here to state what the indices mean.
    ghost var vocab: seq<Word>
    var vocabSize: nat
    var maxContextSize: nat
    var maxQuesSize: nat
    var tPassWeights: seq<seq<real>>
    var vPassWeights: seq<seq<real>>
    var embeddings: seq<DataSingle.Vector>
    var tX: seq<seq<int>>
    var tXq: seq<seq<int>>
    var tYBegin: seq<int>
    var tYEnd: seq<int>
    var vX: seq<seq<int>>
    var vXq: seq<seq<int>>
    var vYBegin: seq<int>
    var vYEnd: seq<int>

    /** The parallel lists agree in length, the matrix has a row per index and the cursor is in range. */
    predicate Valid()
      reads this
    {
      && |tX| == |tXq| == |tYBegin| == |tYEnd| == |tPassRel| == |tPassWeights| == |train|
      && |vX| == |vXq| == |vYBegin| == |vYEnd| == |vPassRel| == |vPassWeights| == |valExamples|
      && |embeddings| == vocabSize
      && (batchSize > 0 ==> CursorOk(valBatchNum, batchSize, |vX|))
    }

    /**
     * __init__ with the JSON and GloVe files already read and the TF-IDF
     * score given: splits both datasets, scores and weighs the passages,
     * builds the vocabulary, the embedding matrix and the vectors.
     * createEmbeddingMatrix needs a vector for 'a' and vectors of one width.
     */
    constructor(config: Config, trainData: seq<Query>, valData: seq<Query>, embeddingsIndex: map<Word, DataSingle.Vector>,
                tokenize: Tokenizer, score: (string, seq<string>) -> seq<real>)
      requires "a" in embeddingsIndex
      requires forall w :: w in embeddingsIndex ==> |embeddingsIndex[w]| == |embeddingsIndex["a"]|
      ensures Valid()
      ensures batchSize == config.batchSize && keepProb == config.keepProb && valBatchNum == 0
      ensures train == SplitRecordsMulti(trainData, tokenize).examples
      ensures valExamples == SplitRecordsMulti(valData, tokenize).examples
      ensures maxContextSize == Max(maxLenTContext, maxLenVContext) && maxQuesSize == Max(maxLenTQuestion, maxLenVQuestion)
      ensures maxLenTContext == SplitRecordsMulti(trainData, tokenize).maxLenContext
      ensures maxLenVContext == SplitRecordsMulti(valData, tokenize).maxLenContext
      ensures maxLenTQuestion == SplitRecordsMulti(trainData, tokenize).maxLenQuestion
      ensures maxLenVQuestion == SplitRecordsMulti(valData, tokenize).maxLenQuestion
      ensures vocab == BuildVocab(Sentences(train, valExamples)) && vocabSize == |vocab| + 1
      ensures Weighted(tPassRel, tPassWeights, train, score, maxContextSize)
      ensures Weighted(vPassRel, vPassWeights, valExamples, score, maxContextSize)
      ensures Vectorized(tX, tXq, tYBegin, tYEnd, train, WordIndex(vocab), maxContextSize, maxQuesSize)
      ensures Vectorized(vX, vXq, vYBegin, vYEnd, valExamples, WordIndex(vocab), maxContextSize, maxQuesSize)
      ensures EmbeddingMatrixOf(embeddings, vocab, embeddingsIndex, |embeddingsIndex["a"]|)
    {
      batchSize, keepProb := config.batchSize, config.keepProb;
      valBatchNum := 0;
      var tEx, tMaxC, tMaxQ := SplitMsmarcoDatasetsMulti(trainData, tokenize);
      train, maxLenTContext, maxLenTQuestion := tEx, tMaxC, tMaxQ;
      var vEx, vMaxC, vMaxQ := SplitMsmarcoDatasetsMulti(valData, tokenize);
      valExamples, maxLenVContext, maxLenVQuestion := vEx, vMaxC, vMaxQ;
      var v := BuildVocab(Sentences(tEx, vEx));
      vocab, vocabSize := v, |v| + 1;
      var wordIndex := WordIndex(v);
      var maxC, maxQ := Max(tMaxC, vMaxC), Max(tMaxQ, vMaxQ);
      maxContextSize, maxQuesSize := maxC, maxQ;
      var tRel, tWeights := WeighExamples(tEx, score, maxC);
      tPassRel, tPassWeights := tRel, tWeights;
      var vRel, vWeights := WeighExamples(vEx, score, maxC);
      vPassRel, vPassWeights := vRel, vWeights;
      StrictlySortedDistinct(v);
      var m := CreateEmbeddingMatrix(embeddingsIndex, v);
      embeddings := m.value;
      VocabCoversTokens(tEx, vEx);
      var tx, txq, tyBegin, tyEnd := VectorizeExamples(tEx, wordIndex, maxC, maxQ);
      tX, tXq, tYBegin, tYEnd := tx, txq, tyBegin, tyEnd;
      var vx, vxq, vyBegin, vyEnd := VectorizeExamples(vEx, wordIndex, maxC, maxQ);
      vX, vXq, vYBegin, vYEnd := vx, vxq, vyBegin, vyEnd;
    }

    /** getNumTrainBatches: `ceil(len(tX) / batch_size)`. */
    function NumTrainBatches(): nat
      reads this
      requires batchSize > 0
    {
      NumBatches(|tX|, batchSize)
    }

    /** getNumValBatches: `ceil(len(vX) / batch_size)`. */
    function NumValBatches(): nat
      reads this
      requires batchSize > 0
    {
      NumBatches(|vX|, batchSize)
    }

    /** getValBatch: the window at the cursor of every validation list, then the cursor moves on and wraps. */
    method GetValBatch() returns (batch: ValBatch)
      requires Valid() && batchSize > 0
      modifies this`valBatchNum
      ensures Valid()
      ensures valBatchNum == Advance(old(valBatchNum), batchSize, |vX|)
      ensures batch == ValWindow(old(valBatchNum), batchSize, valExamples, vX, vXq, vYBegin, vYEnd, vPassWeights)
    {
      WindowInRange(valBatchNum, batchSize, |vX|);
      var start := valBatchNum * batchSize;
      var end := Min(|vX|, (valBatchNum + 1) * batchSize);
      batch := ValBatch(Contexts(valExamples)[start..end], QuestionIds(valExamples)[start..end], vX[start..end],
                        vXq[start..end], vYBegin[start..end], vYEnd[start..end], vPassWeights[start..end]);
      valBatchNum := valBatchNum + 1;
      if valBatchNum >= NumValBatches() {
        valBatchNum := 0;
      }
      AdvanceKeepsCursorOk(old(valBatchNum), batchSize, |vX|);
    }
  }
}
