// pad_sequences: extends every row of index lists, in place, with a reserved
// pad id until it reaches maxlen; longer rows are left as they are.

module Padding {
  import opened Tokens

  /**
   * A row after `for i in range(maxlen - len(row)): row.append(pad)`: its
   * length becomes max(len, maxlen), the original entries keep their places
   * and every added entry is the pad id.
   */
  function Padded(row: seq<int>, maxlen: int, pad: int): (r: seq<int>)
    ensures |r| == Max(|row|, maxlen)
    ensures r[..|row|] == row
    ensures forall k :: |row| <= k < |r| ==> r[k] == pad
  {
    row + seq(Max(maxlen - |row|, 0), _ => pad)
  }

  /**
   * When no original entry equals the pad id, a place of the padded row holds
   * the pad id exactly when it lies past the old end: the pad id marks the padding.
   */
  lemma {:induction false} PadIdMarksPadding(row: seq<int>, maxlen: int, pad: int, k: int)
    requires pad !in row
    requires 0 <= k < |Padded(row, maxlen, pad)|
    ensures Padded(row, maxlen, pad)[k] == pad <==> k >= |row|
  {
    var p := Padded(row, maxlen, pad);
    if k < |row| {
      assert p[k] == row[k];
    }
  }

  /** Rows no longer than maxlen all come out exactly maxlen long. */
  lemma PaddedUniform(rows: seq<seq<int>>, maxlen: int, pad: int)
    requires forall k :: 0 <= k < |rows| ==> |rows[k]| <= maxlen
    ensures forall k :: 0 <= k < |rows| ==> |Padded(rows[k], maxlen, pad)| == maxlen
  {
  }

  /** The padding loop of pad_sequences, over every row of X in place. */
  method PadRows(X: array<seq<int>>, maxlen: int, pad: int)
    modifies X
    ensures forall k :: 0 <= k < X.Length ==> X[k] == Padded(old(X[k]), maxlen, pad)
  {
    for r := 0 to X.Length
      invariant forall k :: 0 <= k < r ==> X[k] == Padded(old(X[k]), maxlen, pad)
      invariant forall k :: r <= k < X.Length ==> X[k] == old(X[k])
    {
      var row := X[r];
      var missing := maxlen - |row|;
      for i := 0 to Max(missing, 0)
        invariant row == X[r] + seq(i, _ => pad)
      {
        row := row + [pad];
      }
      X[r] := row;
    }
  }
}
