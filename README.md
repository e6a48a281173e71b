# Data preparation for MS MARCO reading comprehension

This project models the data-preparation layer of a reading-comprehension pipeline trained on the MS MARCO
question-answering corpus. It is written in Dafny, and the verifier proves the properties stated here.

The layer comes in two versions of the `Data` class:

- **`data.py`, the single-passage version.** It keeps, for each query, the first selected passage that contains one of
  its answers. It vectorizes words against a GloVe-filtered vocabulary, with "smart unknown" classes. It also keeps every
  validation and test query with all of its passages, for evaluation.
- **`data_multi.py`, the concatenated-passage version.** It joins all of a query's passages into one context. It records
  each passage's length, spreads a per-passage relevance score over the passage's tokens, and indexes words from 1 so that
  0 can mark padding.

The two versions share these modules:

- `Tokens`: token sequences, leftmost matching.
- `Msmarco`: the parsed records and the quote fix.
- `Vocabulary`: `buildVocab`.
- `Detokenize`: `join`.
- `Padding`: `pad_sequences` on an array of rows.
- `Batching`: the ceiling batch count and the cyclic batch cursor.
- `Relevance`: passage slicing and `passageWeight`.

Modules for `data.py`:

- `SplitSingle`: `findAnswer`, `splitMsmarcoDatasets` and `splitMsmarcoDatasetsTest`.
- `UnknownWords`: unknown-word classes and the vectorization of one record.
- `DataSingle`: `createEmbeddingMatrix`, `vectorizeData`, `vectorizeDataMutli` and the `Data` class.

Modules for `data_multi.py`:

- `SplitMulti`: `findAnswer` and `splitMsmarcoDatasets`.
- `DataMulti`: `word_index`, `vectorizeData`, `createEmbeddingMatrix` and the `Data` class.

Several things become parameters of the model:

- **The tokenizer.** This is `nltk.word_tokenize` after lower-casing, plus the quote replacements of `tokenize`. It is the
  parameter `tokenize: string -> seq<Word>`.
- **The TF-IDF relevance scorer.** It is the parameter `score`.
- **The GloVe dictionary.** It is a `map<Word, Vector>`.
- **The JSON records.** They are `Msmarco.Query` values.

The methods that build lists in loops are Dafny methods with loop invariants. Each one is proved equal to a specification
function, and the properties are proved as lemmas about those functions. `pad_sequences` works in place on an
`array<seq<int>>`. The batch cursors are fields of the `Data` classes, and `GetValBatch` and `GetTestBatch` modify them.

## Model

| member | source | states |
|---|---|---|
| `Tokens.LeftmostMatch` | data.py:435-437 | the result exists iff some position matches the answer; when it exists, it matches and no earlier position does |
| `Tokens.AgreementsFullIffEqual` | data.py:436-437 | for windows of equal length, the count of agreeing positions equals the answer's length iff the window equals the answer (the `match == answerLen` test) |
| `Tokens.FlattenLength` | data_multi.py:210-213 | the length of the concatenated passages is the sum of the recorded passage lengths |
| `Msmarco.FixQuotes` | data.py:302-304 | after the replacements, the text holds no `''` pair and no ` `` ` pair |
| `Vocabulary.BuildVocab` | data.py:624-630 | the vocabulary is strictly ascending (sorted and duplicate-free), and a word is in it iff it occurs in some input sentence |
| `Vocabulary.SortedSetUnique` | data_multi.py:345-346 | two strictly ascending lists with the same members are equal, so the sorted vocabulary is determined by its word set |
| `Vocabulary.StrictlySortedDistinct` | data.py:628-629 | a strictly ascending list has pairwise distinct entries |
| `Detokenize.Join` | data_multi.py:171-185 | the result is undefined (the `next()` on an empty sequence raises) exactly on the empty token list |
| `Detokenize.GlueKeepsCharacters` | data.py:267-279 | gluing punctuation loses no character: the output words concatenate to the input tokens concatenated |
| `Detokenize.GlueWordCount` | data.py:272-279 | the number of output words is one plus the number of tokens outside `.,;?!` after the first |
| `Detokenize.JoinSplitRoundTrip` | data.py:266-280 | for tokens without spaces, splitting the joined string on single spaces gives back exactly the glued words |
| `Padding.Padded` | data.py:521-526 | a padded row has length max(old length, maxlen), keeps the old row as its prefix, and holds the pad id everywhere after it |
| `Padding.PadIdMarksPadding` | data.py:522-525 | when the pad id is not in the row, a padded entry equals the pad id exactly at the appended positions |
| `Padding.PadRows` | data.py:523-525 | every row of the array is replaced in place by its padded row |
| `Batching.NumBatches` | data.py:138-145 | the count is the ceiling of n / batch size: the batches cover n, and one fewer would not |
| `Batching.AdvanceKeepsCursorOk` | data.py:187-190 | after the increment and wrap, the cursor is still below the batch count (or 0) |
| `Batching.WindowInRange` | data.py:174-176 | a window of a valid cursor lies within `[0, n)` and is non-empty whenever n > 0 |
| `Batching.CursorAfterFirstCycle` | data.py:187-190 | during the first cycle, call k uses cursor k, and the cursor is 0 again after the batch count calls |
| `Batching.CursorAfterPeriodic` | data_multi.py:131-134 | the cursor sequence repeats with period equal to the batch count |
| `Batching.CycleServesEachPositionOnce` | data_multi.py:118-134 | in one cycle of calls, each position below n is served by exactly one call, the call `p / bs` |
| `Relevance.SlicesPartition` | data_multi.py:277-281 | when the lengths add up to the context's length, the slices concatenate back to the context and slice k has `lengths[k]` tokens |
| `Relevance.PassageSlices` | data_multi.py:277-281 | the `prev_end` loop yields the joined slice of each passage |
| `Relevance.PassageRelevance` | data_multi.py:274-293 | each example's scores are the scorer applied to the joined question and the joined passage slices |
| `Relevance.PassWeightShape` | data_multi.py:295-307 | the weights have length max(sum of lengths, max_len); every position of passage k carries its score, and every position past the passages holds 0.0 |
| `Relevance.OneWeight` | data_multi.py:298-306 | the nested loop for one example yields that example's weight row |
| `Relevance.PassageWeight` | data_multi.py:295-307 | row i of the result is the weight row of example i |
| `SplitSingle.FindAnswer` | data.py:432-439 | `None` iff the answer occurs nowhere; otherwise begin is the leftmost match and end = begin + len(answer) - 1 |
| `SplitSingle.FindAnswerSpanInside` | data.py:432-439 | for a non-empty answer that is found, 0 <= begin <= end < len(context) and `context[begin..end]` is the answer |
| `SplitSingle.FirstAnswerIsFirstHit` | data.py:321-336 | no answer is recorded iff no non-empty answer occurs; otherwise the recorded answer is the first one that occurs |
| `SplitSingle.RecordExampleEmpty` | data.py:299-340 | a record emits no example iff none of its passages is selected and answerable |
| `SplitSingle.RecordExampleFirstAnswerable` | data.py:299-340 | a record emits the example of its first selected, answerable passage and stops |
| `SplitSingle.ScanPassagesEmits` | data.py:299-315 | the scan appends at most the record's example, never lowers a maximum, and the new example fits the maxima |
| `SplitSingle.SplitRecordsExamples` | data.py:298-343 | the examples of a split are the records' examples in record order, at most one each |
| `SplitSingle.SplitRecordsWellFormed` | data.py:325-334 | every example's span lies inside its context and spells its answer's tokens, and its recorded lengths are its own and within the split's maxima |
| `SplitSingle.SplitMsmarcoDatasets` | data.py:282-343 | the nested loops with early `break`s produce exactly the specified split |
| `SplitSingle.TestMaximaBound` | data.py:411-418 | every passage and question of the test split is within the returned maxima |
| `SplitSingle.ReadPassages` | data.py:403-413 | the passage loop records each passage's tokens, length and url in order, and the running maximum |
| `SplitSingle.SplitMsmarcoDatasetsTest` | data.py:385-429 | one record per query, with all passages tokenized without the quote fix, and the maxima of all passages and questions |
| `UnknownWords.UnknownClasses` | data.py:20-26 | the class list is non-empty and ends with the catch-all `.*` |
| `UnknownWords.FirstMatch` | data.py:456-460 | the chosen class is the first one whose pattern matches the word, and none is chosen iff no pattern matches |
| `UnknownWords.CatchAllClassifies` | data.py:24-26 | with the catch-all last, every word gets a class |
| `UnknownWords.ContextRowOnePerToken` | data.py:451-460 | the context row has one entry per token: the word's index if known, else `len(word_index)` plus its first class |
| `UnknownWords.QuestionRowKnownOnly` | data.py:461-469 | the question row holds only known-word indices, and its length plus the number of unknown question words is the question's length |
| `UnknownWords.VectorizeRecordBelowPad` | data.py:449-469 | with a dense word index, every entry of both rows is below `len(word_index) + len(unknown_classes)`, the pad id |
| `UnknownWords.VectorizeRecordLengths` | data.py:450-469 | the context row is as long as the context plus the unknown question words |
| `UnknownWords.VectorizeRecordMisplacesUnknownQuestionWord` | data.py:461-469 | with context `the`, question `zzq` and smart classes, the context row becomes `[0, 3]` and the question row is empty |
| `UnknownWords.VectorizeRecordCorrectedAligned` | data.py:461-469 | in the corrected version, the context row has one entry per context token, and the question row has one entry per question token, each the word's index or class |
| `DataSingle.IndexMapDense` | data.py:62 | for distinct words, the index maps exactly the words to `0..n-1` in list order and back |
| `DataSingle.KeptWords` | data.py:239-247 | a word is kept iff it is in the old index and has a GloVe vector |
| `DataSingle.KeptWordsSorted` | data.py:239-245 | filtering a sorted vocabulary keeps it sorted |
| `DataSingle.CreateEmbeddingMatrix` | data.py:232-254 | fails (KeyError) iff `a` has no vector; otherwise the kept words in key order, one matrix row each (their vectors), and the dense index of the kept words |
| `DataSingle.PadIdMarksVectorPadding` | data.py:522-525 | with the re-indexed vocabulary, a padded context row holds the pad id exactly at the padding |
| `DataSingle.VectorizeRows` | data.py:449-476 | row k holds the vectorization of record k, and the answer indices pass through |
| `DataSingle.VectorizeData` | data.py:441-480 | each example's padded context row and question row are those of the record's vectorization, and the answer indices pass through |
| `DataSingle.PadAll` | data.py:521-526 | the returned list holds each row padded to maxlen with the pad id |
| `DataSingle.VectorizeDataMulti` | data.py:482-519 | one padded row per passage, with the unknown question words in the last passage's row, and the padded known-word question row |
| `DataSingle.VectorizeQueryRows` | data.py:489-514 | row i holds every passage row of query i padded, the last one with the unknown question words, and the known-word question row |
| `DataSingle.SplitDatasets` | data.py:32-64 | the training and validation examples are the splits of their data; the evaluation and test lists are the records of every query; `max_context_size` and `max_ques_size` are the maxima over the training, evaluation and test splits; there are no more validation examples than evaluation queries |
| `DataSingle.TotalLengthPositive` | data.py:479 | one non-empty context makes the divisor of vectorizeData's "Percentage Unknown" positive |
| `DataSingle.TotalLengthZero` | data.py:479 | when every context is empty the divisor is 0, so the division raises ZeroDivisionError |
| `DataSingle.TotalPassageLengthPositive` | data.py:518 | one non-empty passage makes the divisor of vectorizeDataMutli's "Percentage Unknown" positive |
| `DataSingle.TotalPassageLengthZero` | data.py:518 | when every passage is empty the divisor is 0, so the division raises ZeroDivisionError |
| `DataSingle.TestRecordsPassages` | data.py:398-422 | a record keeps every passage of its query, so queries with passages give records with passages |
| `DataSingle.TestRecordsSomePassage` | data.py:403-409 | a passage whose text tokenizes to some word is a non-empty passage of its query's record |
| `DataSingle.BuildIndex` | data.py:55-70 | the vocabulary is buildVocab over the training contexts and questions, every evaluation and test passage, and the validation and test questions, cut down to the words with a GloVe vector; it stays strictly sorted, the matrix holds its vectors, and the word index is dense |
| `DataSingle.VectorizeExamples` | data.py:82-89 | every example's padded context and question rows are its record's vectorization, and its answer span passes through |
| `DataSingle.VectorizeQueries` | data.py:93-98 | every query's passage rows and padded question row are those of vectorizeDataMutli |
| `DataSingle.Prepare` | data.py:13-98 | the unknown classes follow `smart_unk`, and the splits, maxima, vocabulary, embedding rows and every vectorized dataset are those of the data |
| `DataSingle.ValBatchesStopAtExamples` | data.py:173-175 | as written, every window of every `getValBatch` call ends at or before `len(vX)` |
| `DataSingle.UnselectedQueryNeverServed` | data.py:173-190 | a validation query with no selected passage yields no example and so no validation batch, although it is in `vm*` |
| `DataSingle.ValEvalCycleServesEveryQueryOnce` | data.py:173-190 | with the window bounded by the number of queries, one cycle serves every validation query exactly once |
| `DataSingle.ValEvalBatchServesQuery` | data.py:173-183 | in the corrected batch, a call whose window holds query p serves p's record, vectors and question length at p's offset |
| `DataSingle.ValEvalBatchAligned` | data.py:178-183 | in the corrected batch, the question length of entry i is that of the query served at entry i |
| `DataSingle.NewData` | data.py:13-102 | the new object's lists line up, both cursors start at 0, the pad id is `len(vocab) + len(unknown_classes)`, and its attributes are the prepared datasets of the data |
| `DataSingle.Data.constructor` | data.py:14-18 | batch size and keep probability come from the config, both cursors start at 0, and the attributes are the given prepared datasets |
| `DataSingle.Data.GetValBatch` | data.py:173-194 | the window over `len(vX)` of the `vm*` lists and of `vXqLen` is returned, and the cursor advances and wraps |
| `DataSingle.Data.GetTestBatch` | data.py:196-217 | the window over `len(temX)` of the test lists is returned, and the cursor advances and wraps |
| `SplitMulti.FindAnswerMulti` | data_multi.py:239-246 | `(-1, -1)` iff the answer occurs nowhere; otherwise the leftmost match and end = begin + len(answer) + 1 |
| `SplitMulti.FindAnswerMultiStoredEnd` | data_multi.py:245-261 | the stored end `end - 1` is begin + len(answer), which can equal len(context) |
| `SplitMulti.StoredEndPastContext` | data_multi.py:245-261 | for context `a b` and answer `b`, the span is (1, 3) and the stored end 2 is past the last token |
| `SplitMulti.AnswerLastSpellsAnswer` | data_multi.py:239-246 | the corrected last index is inside the context, and `context[begin..last]` is the answer |
| `SplitMulti.FirstFoundFrom` | data_multi.py:224-235 | the chosen answer is the first one found in the context, and none is chosen iff none is found |
| `SplitMulti.RecordStepEmits` | data_multi.py:204-237 | a record emits one example iff some answer is found, keeps earlier examples, and raises the maxima to its concatenated and question lengths |
| `SplitMulti.SplitRecordsMultiAtMostOne` | data_multi.py:224-235 | a split has at most one example per record |
| `SplitMulti.SplitRecordsMultiWellFormed` | data_multi.py:204-237 | every example comes from some record: its context is the record's passages concatenated, its lengths sum to the context's, and its span is the first found answer |
| `SplitMulti.SplitRecordsMultiMaxima` | data_multi.py:213-220 | the maxima are at least every record's concatenated length and question length |
| `SplitMulti.ConcatPassages` | data_multi.py:205-211 | the passage loop yields the concatenated tokens and each passage's length |
| `SplitMulti.FirstAnswerFound` | data_multi.py:224-235 | the answer loop stops at the first found answer and returns its span |
| `SplitMulti.SplitMsmarcoDatasetsMulti` | data_multi.py:189-237 | the loops produce exactly the specified split |
| `DataMulti.WordIndexDense` | data_multi.py:40-41 | the word index maps the vocabulary exactly onto `1..len(vocab)`, in order and back |
| `DataMulti.PaddedRowDecodes` | data_multi.py:257-272 | a padded row holds 0 exactly at the padding, and every other entry names its word in the vocabulary |
| `DataMulti.VectorizeData` | data_multi.py:248-266 | the rows hold the index of each token, padded with 0, and the stored end index is `end - 1` |
| `DataMulti.VocabCoversTokens` | data_multi.py:37 | every context and question token of both splits is in the word index, so the lookups never fail |
| `DataMulti.ExamplesFit` | data_multi.py:42-43 | every example fits the split's maxima, and its passage lengths add up to its context's length |
| `DataMulti.RowsRectangular` | data_multi.py:45-60 | all context rows, question rows and weight rows of a split have the common maximal lengths |
| `DataMulti.MatrixRowOfWord` | data_multi.py:154-163 | the row of a vocabulary word is its GloVe vector if it has one and zeros otherwise, and row 0 (padding) is never a word's |
| `DataMulti.CreateEmbeddingMatrix` | data_multi.py:154-163 | fails (KeyError) iff `a` has no vector; otherwise `len(vocab) + 1` rows, each the word's vector or zeros |
| `DataMulti.ValWindowAligned` | data_multi.py:118-129 | every list of a batch is cut at the same window, so entry j of each belongs to the same example |
| `DataMulti.Data.constructor` | data_multi.py:13-64 | the splits, the maxima, `vocab_size = len(vocab) + 1`, the weights, the vectors and the embedding matrix are as specified; the cursor starts at 0 |
| `DataMulti.Data.GetValBatch` | data_multi.py:118-139 | the window over `len(vX)` of every validation list is returned, and the cursor advances and wraps |

## Left out

- **Tokenization.** `tokenize` (`nltk.word_tokenize` after lower-casing, plus its quote replacements) is a foreign call.
  It is the parameter `tokenize`, and every property holds for any tokenizer.
- **TF-IDF scoring.** The TF-IDF vectorizer, the cosine kernel, the normalisation in `data.py` and the softmax in
  `data_multi.py` are foreign calls on floating point. They are the parameter `score`. Only the joining and slicing of
  passages that feed it is modelled.
- **`data.py` relevance weights.** `passageRevelevance` in `data.py` (the `vmPassWeight` and `temPassWeight` lists) is
  not modelled. It is a TF-IDF call on each passage joined by spaces, and nothing else in the model reads those weights.
- **File input.** `loadGloveModel` and `importMsmarco` read files. The GloVe dictionary and the parsed JSON records are
  inputs.
- **Answer output.** `saveAnswersForEval*` write JSON files and create directories.
- **Random batches.** `getRandomTrainBatch` and `getRandomValBatch` draw random samples.
- **NumPy conversion.** `convertToNumpy` only converts lists to arrays.
- **Printing.** The `print` calls and the `smart_unk_counts` statistic are only printed. The "Percentage Unknown" value is
  printed too, but its division can raise; that case is a precondition (see `DataSingle.VectorizeData` below).
- **`getAllData`.** It returns `self.all_data`, which is never assigned, so every call raises.
- **`splitMsmarcoDatasetsValMulti`.** Nothing in the class calls it.
- **Regular expressions.** `\d` is modelled as the ASCII digits `0-9`. On a `str` pattern Python's `\d` also matches every
  other Unicode decimal digit, so a word starting with one gets a later class in the model. `\s` is Python's full
  Unicode whitespace set, and punctuation is `string.punctuation`.
- **Vector contents.** Embedding vectors and weights are `real` values. Float32 rounding is not modelled.
- `DataMulti.CreateEmbeddingMatrix`: requires every GloVe vector to have the width of `a`'s. NumPy would also accept a
  length-1 vector, by broadcasting it across the row.
- `DataSingle.VectorizeDataMulti`: requires every query to have a passage. In the source, a passageless query fails only
  when one of its question words is unknown: it raises a NameError for the first query, and otherwise appends to the
  previous query's already padded last row.
- `DataSingle.VectorizeData`: requires the contexts to hold at least one token. With none, the division of
  "Percentage Unknown" (data.py:479) raises ZeroDivisionError; `DataSingle.TotalLengthZero` shows when.
- `DataSingle.VectorizeDataMulti`: also requires the passages to hold at least one token. With none, the division at
  data.py:518 raises ZeroDivisionError; `DataSingle.TotalPassageLengthZero` shows when.
- `DataSingle.VectorizeExamples`: requires some example with a non-empty context, for the division at data.py:479.
- `DataSingle.VectorizeQueries`: requires some non-empty passage, for the division at data.py:518.
- `DataSingle.Prepare`: requires every validation and test query to have a passage, as `DataSingle.VectorizeDataMulti`
  does. It requires a GloVe vector for `a`; without one the source raises a KeyError, which
  `DataSingle.CreateEmbeddingMatrix` models as `None`. It requires the training and validation examples to have some
  context token and the validation and test passages to have some token; otherwise one of the four
  "Percentage Unknown" divisions raises ZeroDivisionError.
- `DataSingle.NewData`: has the preconditions of `DataSingle.Prepare`, for the same reasons.
- `Batching.NumBatches`: requires a positive batch size. With `batch_size = 0`, `getNum*Batches` (data.py:138-145,
  data_multi.py:86-90) raises ZeroDivisionError.
- `DataSingle.Data.GetValBatch`: requires a positive batch size, because it calls `getNumValBatches`, which raises
  ZeroDivisionError for `batch_size = 0`.
- `DataSingle.Data.GetTestBatch`: requires a positive batch size, for the same reason.
- `DataMulti.Data.GetValBatch`: requires a positive batch size, for the same reason.
- `DataSingle.Data.GetValBatch`: the batch omits `vmXPassWeight`, because the TF-IDF weights are left out. The
  records (`vm`) carry the contexts, question ids, urls and passage lengths that the source returns as separate lists.
- `DataSingle.Data.GetTestBatch`: the batch omits `temXPassWeight`, for the same reason. The records (`tem`)
  carry the contexts, question ids, urls, passage lengths and question lengths.
- `DataMulti.Data.constructor`: requires a GloVe vector for `a`, of the width every vector has; without one the source
  raises a KeyError, which `DataMulti.CreateEmbeddingMatrix` models as `None`. The vocabulary is kept as a ghost field. The source stores only `vocab_size` and
  `word_index`.

## Findings

| source | as written | input that shows it | evidently intended | confidence | as-written member | corrected member |
|---|---|---|---|---|---|---|
| data.py:461-469 | the class index of an unknown question word is appended to the context row `x`, not to the question row `xq` | context `the`, question `zzq`, smart classes, index `{the: 0}` gives `x = [0, 3]`, `xq = []` | `xq.append(...)`: one entry per question token, and the context row one entry per context token | high, not executed | `UnknownWords.VectorizeRecordMisplacesUnknownQuestionWord` | `UnknownWords.VectorizeRecordCorrectedAligned` |
| data.py:173-190 | the validation window is bounded by `len(vX)` (answerable examples) but selects from the per-query `vm*` lists, and takes `vmXqLen` from `vXqLen` | a validation query with no selected passage: `len(vX) = 0`, so its `vm` entry is never served | bound the window by `len(vmX)` and take `vmXqLen` from the queries' own question lengths | medium, not executed | `DataSingle.UnselectedQueryNeverServed` | `DataSingle.ValEvalCycleServesEveryQueryOnce` |
| data_multi.py:245-261 | `findAnswer` returns end = begin + len(answer) + 1, so the stored end `end - 1` is one past the answer's last token | context `a b`, answer `b`: span (1, 3), stored end 2 = len(context) | end = begin + len(answer) - 1, the last token of the answer, as in `data.py` | high, not executed | `SplitMulti.StoredEndPastContext` | `SplitMulti.AnswerLastSpellsAnswer` |

In all three rows the `Data` classes keep the behaviour as written. The corrected definitions sit beside them:
`UnknownWords.VectorizeRecordCorrected`, `DataSingle.ValEvalBatch` and `SplitMulti.AnswerLast`.
