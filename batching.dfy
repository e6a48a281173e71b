// The batch arithmetic of the Data classes: the number of batches
// `ceil(n / batch_size)` and the cyclic cursor of getValBatch/getTestBatch,
// which serves the window [cursor * bs, min(n, (cursor + 1) * bs)) and then
// moves to the next batch, wrapping to 0 after the last one.

module Batching {
  import opened Tokens

  /** `int(math.ceil(n / bs))`: the fewest batches of size bs that hold n items. */
  function NumBatches(n: nat, bs: nat): (r: nat)
    requires bs > 0
    ensures n <= r * bs
    ensures r == 0 || (r - 1) * bs < n
  {
    (n + bs - 1) / bs
  }

  /** The half-open range of positions served at this cursor. */
  function Window(cursor: nat, bs: nat, n: nat): (nat, nat)
  {
    (cursor * bs, Min(n, (cursor + 1) * bs))
  }

  /** `num += 1; if num >= NumBatches: num = 0`. */
  function Advance(cursor: nat, bs: nat, n: nat): nat
    requires bs > 0
  {
    if cursor + 1 >= NumBatches(n, bs) then 0 else cursor + 1
  }

  /** The cursor starts at 0 and stays below the number of batches (or at 0 when there are none). */
  predicate CursorOk(cursor: nat, bs: nat, n: nat)
    requires bs > 0
  {
    cursor == 0 || cursor < NumBatches(n, bs)
  }

  /** Advancing keeps the cursor in range. */
  lemma AdvanceKeepsCursorOk(cursor: nat, bs: nat, n: nat)
    requires bs > 0 && CursorOk(cursor, bs, n)
    ensures CursorOk(Advance(cursor, bs, n), bs, n)
  {
  }

  /** Every window served at a valid cursor lies inside [0, n); when n > 0 it is not empty. */
  lemma {:induction false} WindowInRange(cursor: nat, bs: nat, n: nat)
    requires bs > 0 && CursorOk(cursor, bs, n)
    ensures Window(cursor, bs, n).0 <= Window(cursor, bs, n).1 <= n
    ensures n > 0 ==> Window(cursor, bs, n).0 < Window(cursor, bs, n).1
  {
    var N := NumBatches(n, bs);
    if n > 0 {
      assert N > 0;
      MulMonotone(cursor, N - 1, bs);
      assert cursor * bs <= (N - 1) * bs < n;
      assert cursor * bs < (cursor + 1) * bs by { MulSucc(cursor, bs); }
    } else {
      assert N == 0 && cursor == 0;
    }
  }

  lemma MulMonotone(a: nat, b: nat, c: nat)
    requires a <= b
    ensures a * c <= b * c
  {
  }

  lemma MulSucc(a: nat, c: nat)
    ensures (a + 1) * c == a * c + c
  {
  }

  /**
   * The windows of one cycle tile [0, n): position p is served by batch p / bs,
   * and by no other batch of the cycle.
   */
  lemma {:induction false} WindowOfPosition(p: nat, k: nat, bs: nat, n: nat)
    requires bs > 0 && p < n && k < NumBatches(n, bs)
    ensures p / bs < NumBatches(n, bs)
    ensures Window(k, bs, n).0 <= p < Window(k, bs, n).1 <==> k == p / bs
  {
    var q := p / bs;
    var N := NumBatches(n, bs);
    assert q * bs <= p < (q + 1) * bs by { MulSucc(q, bs); }
    if q >= N {
      MulMonotone(N, q, bs);
      assert false;
    }
    if k < q {
      MulMonotone(k + 1, q, bs);
      MulSucc(k, bs);
    } else if k > q {
      MulMonotone(q + 1, k, bs);
    }
  }

  /** The cursor after k calls of the batch getter, starting from 0. */
  function CursorAfter(k: nat, bs: nat, n: nat): nat
    requires bs > 0
  {
    if k == 0 then 0 else Advance(CursorAfter(k - 1, bs, n), bs, n)
  }

  /** The cursor never leaves its range, however many calls are made. */
  lemma {:induction false} CursorAfterOk(k: nat, bs: nat, n: nat)
    requires bs > 0
    ensures CursorOk(CursorAfter(k, bs, n), bs, n)
  {
    if k > 0 {
      CursorAfterOk(k - 1, bs, n);
      AdvanceKeepsCursorOk(CursorAfter(k - 1, bs, n), bs, n);
    }
  }

  /** No call ever serves a position at or past n. */
  lemma WindowsStayBelow(k: nat, bs: nat, n: nat)
    requires bs > 0
    ensures Window(CursorAfter(k, bs, n), bs, n).1 <= n
  {
    CursorAfterOk(k, bs, n);
    WindowInRange(CursorAfter(k, bs, n), bs, n);
  }

  /** During the first cycle the k-th call finds the cursor at k; the call after the last batch finds it back at 0. */
  lemma {:induction false} CursorAfterFirstCycle(k: nat, bs: nat, n: nat)
    requires bs > 0 && k <= NumBatches(n, bs)
    ensures CursorAfter(k, bs, n) == if k < NumBatches(n, bs) then k else 0
  {
    if k > 0 {
      CursorAfterFirstCycle(k - 1, bs, n);
    }
  }

  /** The cursor is periodic: NumBatches calls bring it back to where it was. */
  lemma {:induction false} CursorAfterPeriodic(k: nat, bs: nat, n: nat)
    requires bs > 0
    ensures CursorAfter(k + NumBatches(n, bs), bs, n) == CursorAfter(k, bs, n)
  {
    var N := NumBatches(n, bs);
    if k == 0 {
      CursorAfterFirstCycle(N, bs, n);
    } else {
      CursorAfterPeriodic(k - 1, bs, n);
      assert CursorAfter(k + N, bs, n) == Advance(CursorAfter(k - 1 + N, bs, n), bs, n);
    }
  }

  /**
   * In the first NumBatches calls of a cycle every position in [0, n) is
   * served exactly once: by call number p / bs.
   */
  lemma CycleServesEachPositionOnce(p: nat, j: nat, bs: nat, n: nat)
    requires bs > 0 && p < n && j < NumBatches(n, bs)
    ensures Window(CursorAfter(j, bs, n), bs, n).0 <= p < Window(CursorAfter(j, bs, n), bs, n).1 <==> j == p / bs
  {
    CursorAfterFirstCycle(j, bs, n);
    WindowOfPosition(p, j, bs, n);
  }
}
