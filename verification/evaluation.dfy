/**
  What `MultiStepExecutor.evaluate` hands to the evaluator: the per-batch
  predictions and targets, concatenated in iteration order, cut to the first
  `seq_len` rows with Python's slice `[:seq_len]`, then inverse-scaled row by
  row.
 */
module Evaluation {
  import opened Ints

  /** One test sample's values (horizon x nodes x features), in whatever
      units the scaler works in. */
  type Row = seq<real>

  /** One test batch: the network's predictions and the targets, one row per sample. */
  datatype TestBatch = TestBatch(pred: seq<Row>, target: seq<Row>)

  /** What `evaluator.evaluate(preds, realy)` receives. */
  datatype EvalInput = EvalInput(preds: seq<Row>, targets: seq<Row>)

  /** `torch.cat(chunks, dim=0)`: the chunks' rows, one chunk after the
      other. Every row of every chunk is kept, and the result is empty only
      when every chunk is. */
  function Flatten(chunks: seq<seq<Row>>): (r: seq<Row>)
    ensures forall j, i :: 0 <= j < |chunks| && 0 <= i < |chunks[j]| ==> chunks[j][i] in r
    ensures r == [] <==> forall j :: 0 <= j < |chunks| ==> chunks[j] == []
  {
    if chunks == [] then [] else chunks[0] + Flatten(chunks[1..])
  }

  /** Appending one chunk appends its rows after all earlier ones. */
  lemma {:induction false} FlattenAppend(chunks: seq<seq<Row>>, c: seq<Row>)
    ensures Flatten(chunks + [c]) == Flatten(chunks) + c
  {
    if chunks != [] {
      assert (chunks + [c])[1..] == chunks[1..] + [c];
      FlattenAppend(chunks[1..], c);
    }
  }

  /** Row i of chunk j lands right after the rows of the chunks before it. */
  lemma {:induction false} FlattenAt(chunks: seq<seq<Row>>, j: nat, i: nat)
    requires j < |chunks| && i < |chunks[j]|
    ensures |Flatten(chunks[..j])| + i < |Flatten(chunks)|
    ensures Flatten(chunks)[|Flatten(chunks[..j])| + i] == chunks[j][i]
  {
    FlattenSplit(chunks, j);
    assert chunks[j..] == [chunks[j]] + chunks[j + 1..];
    assert Flatten(chunks[j..]) == chunks[j] + Flatten(chunks[j + 1..]);
  }

  /** Flattening distributes over a split of the chunk list. */
  lemma {:induction false} FlattenSplit(chunks: seq<seq<Row>>, j: nat)
    requires j <= |chunks|
    ensures Flatten(chunks) == Flatten(chunks[..j]) + Flatten(chunks[j..])
  {
    if j > 0 {
      assert chunks[..j][1..] == chunks[1..][..j - 1];
      assert chunks[j..] == chunks[1..][j - 1..];
      FlattenSplit(chunks[1..], j - 1);
    }
  }

  /** Python's `s[:k]`: the first k rows, all of them when k is larger, and for a
      negative k all but the last -k rows. */
  function PyPrefix(s: seq<Row>, k: int): (r: seq<Row>)
    ensures |r| == (if k >= 0 then Min(k, |s|) else Max0(|s| + k))
    ensures r == s[..|r|]
  {
    if k >= 0 then (if k <= |s| then s[..k] else s)
    else if |s| + k > 0 then s[..|s| + k] else []
  }

  /** `scaler.inverse_transform`, applied to every row. */
  function MapRows(f: Row -> Row, rows: seq<Row>): (r: seq<Row>)
    ensures |r| == |rows|
    ensures forall i :: 0 <= i < |rows| ==> r[i] == f(rows[i])
  {
    if rows == [] then [] else [f(rows[0])] + MapRows(f, rows[1..])
  }

  function Preds(batches: seq<TestBatch>): seq<seq<Row>> {
    seq(|batches|, j requires 0 <= j < |batches| => batches[j].pred)
  }

  function Targets(batches: seq<TestBatch>): seq<seq<Row>> {
    seq(|batches|, j requires 0 <= j < |batches| => batches[j].target)
  }

  /** The evaluator's input for a non-empty test pass: a leading part of
      each concatenation, every row of it inverse-scaled. */
  function Truncated(batches: seq<TestBatch>, seqLen: int, inverse: Row -> Row): (r: EvalInput)
    ensures |r.preds| <= |Flatten(Preds(batches))| && |r.targets| <= |Flatten(Targets(batches))|
    ensures forall i :: 0 <= i < |r.preds| ==> r.preds[i] == inverse(Flatten(Preds(batches))[i])
    ensures forall i :: 0 <= i < |r.targets| ==> r.targets[i] == inverse(Flatten(Targets(batches))[i])
  {
    EvalInput(MapRows(inverse, PyPrefix(Flatten(Preds(batches)), seqLen)),
              MapRows(inverse, PyPrefix(Flatten(Targets(batches)), seqLen)))
  }

  /** Rows at index seq_len or later never reach the evaluator: whatever
      follows the first seq_len rows, the truncated rows are the same. */
  lemma TailNeverReachesEvaluator(s: seq<Row>, tail: seq<Row>, k: int, inverse: Row -> Row)
    requires 0 <= k <= |s|
    ensures MapRows(inverse, PyPrefix(s + tail, k)) == MapRows(inverse, PyPrefix(s, k))
  {
    assert (s + tail)[..k] == s[..k];
  }

  /** With a non-negative seq_len, the evaluator sees exactly min(seq_len,
      total) prediction rows and as many target rows, and row i of each is
      the inverse-scaled i-th row of its concatenation. */
  lemma TruncationKeepsFirstRows(batches: seq<TestBatch>, seqLen: int, inverse: Row -> Row, i: nat)
    requires 0 <= seqLen
    ensures var all := Flatten(Preds(batches));
      && |Truncated(batches, seqLen, inverse).preds| == Min(seqLen, |all|)
      && (i < Min(seqLen, |all|) ==> Truncated(batches, seqLen, inverse).preds[i] == inverse(all[i]))
    ensures var all := Flatten(Targets(batches));
      && |Truncated(batches, seqLen, inverse).targets| == Min(seqLen, |all|)
      && (i < Min(seqLen, |all|) ==> Truncated(batches, seqLen, inverse).targets[i] == inverse(all[i]))
  {
  }
}
