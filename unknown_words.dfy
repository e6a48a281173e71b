// The "smart unknown" word classes of data.py and the index rows that
// vectorizeData builds from a token list: a word of the index maps to its
// index, any other word to len(word_index) + j for the first class j whose
// pattern re.match accepts.

module UnknownWords {
  import opened Tokens

  /**
   * The four patterns of data.py, in order: '\d+' (a digit at the start,
   * since re.match anchors there), '^[\s<punctuation>]+$', '^[a-z]+$' and
   * the catch-all '.*'.
   */
  datatype UnknownClass = LeadingDigit | PunctuationOnly | LowercaseWord | CatchAll

  /** The class list: all four with config.smart_unk, otherwise the catch-all alone. */
  function UnknownClasses(smartUnk: bool): (classes: seq<UnknownClass>)
    ensures classes != [] && classes[|classes| - 1] == CatchAll
  {
    if smartUnk then [LeadingDigit, PunctuationOnly, LowercaseWord, CatchAll] else [CatchAll]
  }

  /** `\d` (decimal digits, ASCII only in this model). */
  predicate IsDigit(c: char)
  {
    '0' <= c <= '9'
  }

  /** `\s` on a str pattern: the characters Python's regular expressions treat as whitespace. */
  predicate IsSpace(c: char)
  {
    || '\t' <= c <= '\r' || '\U{1c}' <= c <= ' ' || c == '\U{85}' || c == '\U{a0}' || c == '\U{1680}'
    || '\U{2000}' <= c <= '\U{200a}' || c == '\U{2028}' || c == '\U{2029}' || c == '\U{202f}' || c == '\U{205f}'
    || c == '\U{3000}'
  }

  /** `string.punctuation`: the four runs of ASCII punctuation from '!' to '~'. */
  predicate IsPunct(c: char)
  {
    '!' <= c <= '/' || ':' <= c <= '@' || '[' <= c <= '`' || '{' <= c <= '~'
  }

  predicate IsLower(c: char)
  {
    'a' <= c <= 'z'
  }

  predicate AllLower(w: string)
  {
    forall i :: 0 <= i < |w| ==> IsLower(w[i])
  }

  /**
   * Whether `re.match(pattern, w)` finds a match. '$' also matches just before
   * a final newline, so '^[a-z]+$' accepts a lower-case word followed by one
   * '\n'; for the punctuation class the newline is itself a class member.
   */
  predicate Matches(c: UnknownClass, w: string)
  {
    match c
    case LeadingDigit => |w| > 0 && IsDigit(w[0])
    case PunctuationOnly => |w| > 0 && forall i :: 0 <= i < |w| ==> IsSpace(w[i]) || IsPunct(w[i])
    case LowercaseWord =>
      (|w| > 0 && AllLower(w)) || (|w| > 1 && w[|w| - 1] == '\n' && AllLower(w[..|w| - 1]))
    case CatchAll => true
  }

  /** `for j in range(len(classes)): if re.match(...): ...; break`, from class j on. */
  function FirstMatchFrom(classes: seq<UnknownClass>, w: string, j: nat): (r: Option<nat>)
    decreases |classes| - j
    ensures r.None? <==> forall k :: j <= k < |classes| ==> !Matches(classes[k], w)
    ensures r.Some? ==> j <= r.value < |classes| && Matches(classes[r.value], w)
    ensures r.Some? ==> forall k :: j <= k < r.value ==> !Matches(classes[k], w)
  {
    if j >= |classes| then None
    else if Matches(classes[j], w) then Some(j)
    else FirstMatchFrom(classes, w, j + 1)
  }

  /** The first class whose pattern accepts w. */
  function FirstMatch(classes: seq<UnknownClass>, w: string): (r: Option<nat>)
    ensures r.None? <==> forall k :: 0 <= k < |classes| ==> !Matches(classes[k], w)
    ensures r.Some? ==> r.value < |classes| && Matches(classes[r.value], w)
    ensures r.Some? ==> forall k :: 0 <= k < r.value ==> !Matches(classes[k], w)
  {
    FirstMatchFrom(classes, w, 0)
  }

  /** With the catch-all last, every word falls into some class. */
  lemma CatchAllClassifies(classes: seq<UnknownClass>, w: string)
    requires classes != [] && classes[|classes| - 1] == CatchAll
    ensures FirstMatch(classes, w).Some?
  {
    assert Matches(classes[|classes| - 1], w);
  }

  /** What one context token contributes to its row: its index, a class index, or nothing. */
  function TokenEntry(w: Word, wordIndex: map<Word, int>, classes: seq<UnknownClass>): seq<int>
  {
    if w in wordIndex then [wordIndex[w]]
    else match FirstMatch(classes, w)
      case None => []
      case Some(j) => [|wordIndex| + j]
  }

  /** The row built by the context loop of vectorizeData, before padding. */
  function ContextRow(ws: seq<Word>, wordIndex: map<Word, int>, classes: seq<UnknownClass>): seq<int>
  {
    if ws == [] then []
    else ContextRow(ws[..|ws| - 1], wordIndex, classes) + TokenEntry(ws[|ws| - 1], wordIndex, classes)
  }

  /** The entries the question loop of vectorizeData puts into xq: the indices of known words only. */
  function QuestionRow(ws: seq<Word>, wordIndex: map<Word, int>): seq<int>
  {
    if ws == [] then []
    else
      var w := ws[|ws| - 1];
      QuestionRow(ws[..|ws| - 1], wordIndex) + (if w in wordIndex then [wordIndex[w]] else [])
  }

  /** The class indices the question loop appends for the words outside the index. */
  function QuestionExtras(ws: seq<Word>, wordIndex: map<Word, int>, classes: seq<UnknownClass>): seq<int>
  {
    if ws == [] then []
    else
      var w := ws[|ws| - 1];
      QuestionExtras(ws[..|ws| - 1], wordIndex, classes) + (if w in wordIndex then [] else TokenEntry(w, wordIndex, classes))
  }

  /** Number of words outside the index. */
  function CountUnknown(ws: seq<Word>, wordIndex: map<Word, int>): nat
  {
    if ws == [] then 0
    else CountUnknown(ws[..|ws| - 1], wordIndex) + (if ws[|ws| - 1] in wordIndex then 0 else 1)
  }

  /** The index a token receives when the catch-all is last. */
  function EntryOf(w: Word, wordIndex: map<Word, int>, classes: seq<UnknownClass>): int
    requires classes != [] && classes[|classes| - 1] == CatchAll
  {
    CatchAllClassifies(classes, w);
    if w in wordIndex then wordIndex[w] else |wordIndex| + FirstMatch(classes, w).value
  }

  /** With the catch-all last a token contributes exactly its EntryOf. */
  lemma TokenEntryIsEntryOf(w: Word, wordIndex: map<Word, int>, classes: seq<UnknownClass>)
    requires classes != [] && classes[|classes| - 1] == CatchAll
    ensures TokenEntry(w, wordIndex, classes) == [EntryOf(w, wordIndex, classes)]
  {
    CatchAllClassifies(classes, w);
  }

  /**
   * With the catch-all last every token yields exactly one entry: the row is
   * as long as the token list, and entry k is the index of token k or, for a
   * word outside the index, len(word_index) plus its first matching class.
   */
  lemma {:induction false} ContextRowOnePerToken(ws: seq<Word>, wordIndex: map<Word, int>, classes: seq<UnknownClass>)
    requires classes != [] && classes[|classes| - 1] == CatchAll
    ensures |ContextRow(ws, wordIndex, classes)| == |ws|
    ensures forall k :: 0 <= k < |ws| ==> ContextRow(ws, wordIndex, classes)[k] == EntryOf(ws[k], wordIndex, classes)
  {
    if ws != [] {
      var front := ws[..|ws| - 1];
      ContextRowOnePerToken(front, wordIndex, classes);
      TokenEntryIsEntryOf(ws[|ws| - 1], wordIndex, classes);
      assert forall k :: 0 <= k < |front| ==> front[k] == ws[k];
    }
  }

  predicate DenseIndex(wordIndex: map<Word, int>)
  {
    forall w :: w in wordIndex ==> 0 <= wordIndex[w] < |wordIndex|
  }

  /**
   * Over a dense index every row entry lies in [0, len(word_index) + len(classes)):
   * below the pad id vocab_size + len(unknown_classes), so padding never
   * collides with a word or a class.
   */
  lemma {:induction false} ContextRowBelowPad(ws: seq<Word>, wordIndex: map<Word, int>, classes: seq<UnknownClass>)
    requires DenseIndex(wordIndex)
    ensures forall v :: v in ContextRow(ws, wordIndex, classes) ==> 0 <= v < |wordIndex| + |classes|
  {
    if ws != [] {
      ContextRowBelowPad(ws[..|ws| - 1], wordIndex, classes);
    }
  }

  /** Over a dense index the class entries of the question words lie below the pad id too. */
  lemma {:induction false} QuestionExtrasBelowPad(ws: seq<Word>, wordIndex: map<Word, int>, classes: seq<UnknownClass>)
    requires DenseIndex(wordIndex)
    ensures forall v :: v in QuestionExtras(ws, wordIndex, classes) ==> 0 <= v < |wordIndex| + |classes|
  {
    if ws != [] {
      QuestionExtrasBelowPad(ws[..|ws| - 1], wordIndex, classes);
    }
  }

  /** Over a dense index xq holds word indices only, all below len(word_index). */
  lemma {:induction false} QuestionRowBelowPad(ws: seq<Word>, wordIndex: map<Word, int>)
    requires DenseIndex(wordIndex)
    ensures forall v :: v in QuestionRow(ws, wordIndex) ==> 0 <= v < |wordIndex|
  {
    if ws != [] {
      QuestionRowBelowPad(ws[..|ws| - 1], wordIndex);
    }
  }

  /** xq holds the indices of the known question words, so it is never longer than the question. */
  lemma {:induction false} QuestionRowKnownOnly(ws: seq<Word>, wordIndex: map<Word, int>)
    ensures |QuestionRow(ws, wordIndex)| + CountUnknown(ws, wordIndex) == |ws|
    ensures forall k :: 0 <= k < |QuestionRow(ws, wordIndex)| ==> QuestionRow(ws, wordIndex)[k] in wordIndex.Values
  {
    if ws != [] {
      QuestionRowKnownOnly(ws[..|ws| - 1], wordIndex);
    }
  }

  /** With the catch-all last, every unknown question word yields one extra entry. */
  lemma {:induction false} QuestionExtrasCount(ws: seq<Word>, wordIndex: map<Word, int>, classes: seq<UnknownClass>)
    requires classes != [] && classes[|classes| - 1] == CatchAll
    ensures |QuestionExtras(ws, wordIndex, classes)| == CountUnknown(ws, wordIndex)
  {
    if ws != [] {
      QuestionExtrasCount(ws[..|ws| - 1], wordIndex, classes);
      CatchAllClassifies(classes, ws[|ws| - 1]);
    }
  }

  /**
   * One record of vectorizeData as written: the class indices of unknown
   * question words are appended to the context row x, and xq keeps only
   * the known question words.
   */
  function VectorizeRecord(context: seq<Word>, question: seq<Word>, wordIndex: map<Word, int>, classes: seq<UnknownClass>)
    : (seq<int>, seq<int>)
  {
    (ContextRow(context, wordIndex, classes) + QuestionExtras(question, wordIndex, classes),
     QuestionRow(question, wordIndex))
  }

  /**
   * Over a dense index both rows of a record hold only ids in
   * [0, len(word_index) + len(classes)): none equals the pad id.
   */
  lemma VectorizeRecordBelowPad(context: seq<Word>, question: seq<Word>, wordIndex: map<Word, int>, classes: seq<UnknownClass>)
    requires DenseIndex(wordIndex)
    ensures forall v :: v in VectorizeRecord(context, question, wordIndex, classes).0 ==> 0 <= v < |wordIndex| + |classes|
    ensures forall v :: v in VectorizeRecord(context, question, wordIndex, classes).1 ==> 0 <= v < |wordIndex| + |classes|
  {
    ContextRowBelowPad(context, wordIndex, classes);
    QuestionExtrasBelowPad(question, wordIndex, classes);
    QuestionRowBelowPad(question, wordIndex);
  }

  /**
   * As written, x grows by one entry per unknown question word: its length is
   * the context length plus the number of question words missing from xq.
   */
  lemma VectorizeRecordLengths(context: seq<Word>, question: seq<Word>, wordIndex: map<Word, int>, classes: seq<UnknownClass>)
    requires classes != [] && classes[|classes| - 1] == CatchAll
    ensures |VectorizeRecord(context, question, wordIndex, classes).0|
      == |context| + |question| - |VectorizeRecord(context, question, wordIndex, classes).1|
  {
    ContextRowOnePerToken(context, wordIndex, classes);
    QuestionRowKnownOnly(question, wordIndex);
    QuestionExtrasCount(question, wordIndex, classes);
  }

  /** "zzq" is classed as a (misspelled) lower-case word: index 2 of the smart classes. */
  lemma LowercaseWordClass()
    ensures FirstMatch(UnknownClasses(true), "zzq") == Some(2)
  {
    var w, classes := "zzq", UnknownClasses(true);
    assert w[0] == 'z';
    assert !IsSpace('z');
    assert !IsPunct('z');
    assert !Matches(classes[0], w) && !Matches(classes[1], w);
    assert Matches(classes[2], w);
    var r := FirstMatch(classes, w);
    assert r.Some? && r.value <= 2;
  }

  /**
   * A concrete record on which the as-written row x is longer than its
   * context: the unknown question word "zzq" lands at position 1 of x, past
   * the one-token context, and is missing from xq.
   */
  lemma VectorizeRecordMisplacesUnknownQuestionWord()
    ensures VectorizeRecord(["the"], ["zzq"], map["the" := 0], UnknownClasses(true)) == ([0, 3], [])
  {
    var classes := UnknownClasses(true);
    LowercaseWordClass();
    var wordIndex := map["the" := 0];
    assert "zzq" !in wordIndex && |wordIndex| == 1;
    assert ["zzq"][..0] == [] && ["the"][..0] == [];
    assert ContextRow(["the"], wordIndex, classes) == [0];
    assert QuestionExtras(["zzq"], wordIndex, classes) == [3];
    assert QuestionRow(["zzq"], wordIndex) == [];
    assert [0] + [3] == [0, 3];
  }

  /**
   * The evidently intended record: the question row gets the same treatment
   * as the context row, so x stays aligned with the context and xq with the
   * question.
   */
  function VectorizeRecordCorrected(context: seq<Word>, question: seq<Word>, wordIndex: map<Word, int>, classes: seq<UnknownClass>)
    : (seq<int>, seq<int>)
  {
    (ContextRow(context, wordIndex, classes), ContextRow(question, wordIndex, classes))
  }

  /** In the corrected record, position k of x and of xq is the entry of token k. */
  lemma VectorizeRecordCorrectedAligned(context: seq<Word>, question: seq<Word>, wordIndex: map<Word, int>, classes: seq<UnknownClass>)
    requires classes != [] && classes[|classes| - 1] == CatchAll
    ensures |VectorizeRecordCorrected(context, question, wordIndex, classes).0| == |context|
    ensures |VectorizeRecordCorrected(context, question, wordIndex, classes).1| == |question|
    ensures forall k :: 0 <= k < |context| ==>
      VectorizeRecordCorrected(context, question, wordIndex, classes).0[k] == EntryOf(context[k], wordIndex, classes)
    ensures forall k :: 0 <= k < |question| ==>
      VectorizeRecordCorrected(context, question, wordIndex, classes).1[k] == EntryOf(question[k], wordIndex, classes)
  {
    ContextRowOnePerToken(context, wordIndex, classes);
    ContextRowOnePerToken(question, wordIndex, classes);
  }
}
