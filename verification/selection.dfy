/**
  Model selection and early stopping in `MultiStepExecutor.train`, with the
  network abstracted away: each epoch contributes only its mean validation
  loss. This module is the specification of that bookkeeping; the executor's
  `Train` method is proved against it.
 */
module Selection {
  import opened Wrappers
  import opened Ints

  /** The value `best_val` holds in a freshly constructed executor. */
  const Sentinel: real := 10000000.0

  /** An epoch's mean validation loss. NaN (the mean of an empty list, or a
      diverged network) makes every comparison false. */
  datatype Loss = Finite(value: real) | NaN

  /** The selection state during one call of train: `best_val`, the epoch
      (counted from 1) at which `best_model` was last assigned in this call,
      and the local counter `wait`. */
  datatype Tracker = Tracker(bestVal: real, best: Option<nat>, wait: nat)

  /** The state at the start of a call: `best_val` carries over from the
      object, `wait` restarts at 0 and nothing has been selected yet. */
  function Start(bestVal: real): Tracker {
    Tracker(bestVal, None, 0)
  }

  /** `mvalid_loss < self.best_val`. */
  predicate Improves(loss: Loss, bestVal: real) {
    loss.Finite? && loss.value < bestVal
  }

  /** The improvement check of one epoch: best_val never rises, the
      selection moves only to this epoch, and wait is reset exactly on a
      strict improvement. */
  function Step(t: Tracker, epoch: nat, loss: Loss): (r: Tracker)
    ensures r.bestVal <= t.bestVal
    ensures r.best == t.best || r.best == Some(epoch)
    ensures r.wait == 0 <==> Improves(loss, t.bestVal)
  {
    if Improves(loss, t.bestVal) then Tracker(loss.value, Some(epoch), 0)
    else t.(wait := t.wait + 1)
  }

  /** The state after the first n epochs, when none of them stopped the
      loop; best_val is at most its start value. */
  function After(t0: Tracker, losses: seq<Loss>, n: nat): (r: Tracker)
    requires n <= |losses|
    ensures r.bestVal <= t0.bestVal
  {
    if n == 0 then t0 else Step(After(t0, losses, n - 1), n, losses[n - 1])
  }

  /** The number of epochs the loop runs when it may still run epochs
      `from`..`epochs`: the first of them after which `wait >= patience`,
      or the whole budget. */
  function StopSearch(t0: Tracker, losses: seq<Loss>, epochs: int, patience: int, from: nat): (n: nat)
    requires epochs <= |losses|
    requires 1 <= from <= Max0(epochs) + 1
    ensures from - 1 <= n <= Max0(epochs)
    ensures forall m: nat :: from <= m < n ==> After(t0, losses, m).wait < patience
    ensures n == Max0(epochs) || (from <= n && After(t0, losses, n).wait >= patience)
    decreases Max0(epochs) + 1 - from
  {
    if from > epochs then from - 1
    else if After(t0, losses, from).wait >= patience then from
    else StopSearch(t0, losses, epochs, patience, from + 1)
  }

  /** The number of epochs `for epoch in range(1, epochs + 1)` runs before it
      breaks on `wait >= patience` or runs out of budget. */
  function StopEpoch(t0: Tracker, losses: seq<Loss>, epochs: int, patience: int): (n: nat)
    requires epochs <= |losses|
    ensures n <= Max0(epochs)
    ensures forall m: nat :: 1 <= m < n ==> After(t0, losses, m).wait < patience
    ensures n == Max0(epochs) || (1 <= n && After(t0, losses, n).wait >= patience)
  {
    StopSearch(t0, losses, epochs, patience, 1)
  }

  /** The epochs run when the comparison `wait >= patience` may raise
      (threshold None): the first check, after epoch 1, raises. */
  function RunLength(t0: Tracker, losses: seq<Loss>, epochs: int, threshold: Option<int>): (n: nat)
    requires epochs <= |losses|
    ensures n <= Max0(epochs)
  {
    match threshold
    case None => if epochs >= 1 then 1 else 0
    case Some(p) => StopEpoch(t0, losses, epochs, p)
  }

  /** The loop goes on after epoch m. */
  predicate StillWaiting(t0: Tracker, losses: seq<Loss>, m: nat, patience: int) {
    m <= |losses| && After(t0, losses, m).wait < patience
  }

  /** The three conditions of StopEpoch's contract determine it. */
  lemma StopEpochUnique(t0: Tracker, losses: seq<Loss>, epochs: int, patience: int, n: nat)
    requires epochs <= |losses|
    requires n <= Max0(epochs)
    requires forall m: nat :: 1 <= m < n ==> After(t0, losses, m).wait < patience
    requires n == Max0(epochs) || (1 <= n && After(t0, losses, n).wait >= patience)
    ensures StopEpoch(t0, losses, epochs, patience) == n
  {
    var s: nat := StopEpoch(t0, losses, epochs, patience);
    assert s < n ==> StillWaiting(t0, losses, s, patience);
    assert n < s ==> StillWaiting(t0, losses, n, patience);
  }

  /** An epoch whose loss equals `best_val` is not an improvement: best_val
      and the selected epoch stay, wait grows by one. */
  lemma TieIsNotImprovement(t: Tracker, epoch: nat)
    ensures Step(t, epoch, Finite(t.bestVal)) == Tracker(t.bestVal, t.best, t.wait + 1)
  {
  }

  /** `best_val` never increases from one epoch to any later one. */
  lemma {:induction false} BestValNonIncreasing(t0: Tracker, losses: seq<Loss>, i: nat, j: nat)
    requires i <= j <= |losses|
    ensures After(t0, losses, j).bestVal <= After(t0, losses, i).bestVal
  {
    if i < j {
      BestValNonIncreasing(t0, losses, i, j - 1);
    }
  }

  /** What the state after n epochs of a call means. best_val is the least of
      its value at the call and the finite losses seen. When an epoch k was
      selected, its loss is that minimum, it beat best_val at the call, every
      earlier epoch's loss was strictly larger (k is the first epoch reaching
      the minimum) and wait counts the n - k epochs since. When none was
      selected, no loss beat best_val and wait counts every epoch. */
  lemma {:induction false} SelectionAt(b: real, losses: seq<Loss>, n: nat)
    requires n <= |losses|
    ensures var t := After(Start(b), losses, n);
      && t.bestVal <= b
      && (forall m :: 0 <= m < n && losses[m].Finite? ==> t.bestVal <= losses[m].value)
      && (t.best.None? ==> t.bestVal == b && t.wait == n)
      && (t.best.Some? ==>
            && 1 <= t.best.value <= n
            && losses[t.best.value - 1] == Finite(t.bestVal)
            && t.bestVal < b
            && t.wait == n - t.best.value
            && forall m :: 0 <= m < t.best.value - 1 && losses[m].Finite? ==> t.bestVal < losses[m].value)
  {
    if n > 0 {
      SelectionAt(b, losses, n - 1);
    }
  }

  /** Losses that improve at epoch 1 and never again leave epoch 1 selected
      with wait counting the epochs since. */
  lemma {:induction false} AfterSingleImprovement(b: real, losses: seq<Loss>, n: nat)
    requires 1 <= n <= |losses|
    requires Improves(losses[0], b)
    requires forall m :: 1 <= m < n ==> !Improves(losses[m], losses[0].value)
    ensures After(Start(b), losses, n) == Tracker(losses[0].value, Some(1), n - 1)
  {
    if n > 1 {
      AfterSingleImprovement(b, losses, n - 1);
    }
  }

  /** Early-stop termination: a loss that improves at epoch 1 and never again
      stops the loop at epoch 1 + patience (at epoch 1 when patience is not
      positive), unless the budget runs out first. */
  lemma StopAfterSingleImprovement(b: real, losses: seq<Loss>, epochs: int, patience: int)
    requires 1 <= epochs <= |losses|
    requires Improves(losses[0], b)
    requires forall m :: 1 <= m < epochs ==> !Improves(losses[m], losses[0].value)
    ensures var n := StopEpoch(Start(b), losses, epochs, patience);
      && n == Min(epochs, 1 + Max0(patience))
      && After(Start(b), losses, n) == Tracker(losses[0].value, Some(1), n - 1)
  {
    var c: nat := Min(epochs, 1 + Max0(patience));
    forall m: nat | 1 <= m <= c
      ensures After(Start(b), losses, m) == Tracker(losses[0].value, Some(1), m - 1)
    {
      AfterSingleImprovement(b, losses, m);
    }
    StopEpochUnique(Start(b), losses, epochs, patience, c);
  }

  /** Losses that strictly improve at every epoch of the budget. */
  predicate ImprovingThroughout(b: real, losses: seq<Loss>, epochs: int)
    requires epochs <= |losses|
  {
    && (forall m :: 0 <= m < Max0(epochs) ==> losses[m].Finite?)
    && (Max0(epochs) > 0 ==> losses[0].value < b)
    && (forall m :: 1 <= m < Max0(epochs) ==> losses[m].value < losses[m - 1].value)
  }

  lemma {:induction false} AfterImprovingThroughout(b: real, losses: seq<Loss>, epochs: int, n: nat)
    requires epochs <= |losses|
    requires ImprovingThroughout(b, losses, epochs)
    requires 1 <= n <= Max0(epochs)
    ensures After(Start(b), losses, n) == Tracker(losses[n - 1].value, Some(n), 0)
  {
    if n > 1 {
      AfterImprovingThroughout(b, losses, epochs, n - 1);
    }
  }

  /** No early stop within the budget: with a positive patience, losses that
      improve at every epoch run the whole budget and select the last epoch. */
  lemma NoEarlyStopWhileImproving(b: real, losses: seq<Loss>, epochs: int, patience: int)
    requires epochs <= |losses|
    requires 1 <= patience
    requires ImprovingThroughout(b, losses, epochs)
    ensures StopEpoch(Start(b), losses, epochs, patience) == Max0(epochs)
    ensures epochs >= 1 ==> After(Start(b), losses, epochs).best == Some(epochs)
  {
    forall m: nat | 1 <= m <= Max0(epochs)
      ensures After(Start(b), losses, m) == Tracker(losses[m - 1].value, Some(m), 0)
    {
      AfterImprovingThroughout(b, losses, epochs, m);
    }
    StopEpochUnique(Start(b), losses, epochs, patience, Max0(epochs));
  }

  /** With patience 0 (or less) the first check stops the loop after epoch 1. */
  lemma NonPositivePatienceStopsAfterFirstEpoch(t0: Tracker, losses: seq<Loss>, epochs: int, patience: int)
    requires 1 <= epochs <= |losses|
    requires patience <= 0
    ensures StopEpoch(t0, losses, epochs, patience) == 1
  {
    StopEpochUnique(t0, losses, epochs, patience, 1);
  }

  lemma {:induction false} AfterNoImprovement(b: real, losses: seq<Loss>, n: nat)
    requires n <= |losses|
    requires forall m :: 0 <= m < n ==> !Improves(losses[m], b)
    ensures After(Start(b), losses, n) == Tracker(b, None, n)
  {
    if n > 0 {
      AfterNoImprovement(b, losses, n - 1);
    }
  }

  /** A call in which no loss beats `best_val` (a second call whose losses do
      not beat the persisted best_val, or losses never below the sentinel)
      selects nothing and runs max(patience, 1) epochs, or the budget. */
  lemma NoImprovementStopsAtPatience(b: real, losses: seq<Loss>, epochs: int, patience: int)
    requires epochs <= |losses|
    requires forall m :: 0 <= m < Max0(epochs) ==> !Improves(losses[m], b)
    ensures var n := StopEpoch(Start(b), losses, epochs, patience);
      && n == Min(Max0(epochs), if patience < 1 then 1 else patience)
      && After(Start(b), losses, n) == Tracker(b, None, n)
  {
    var c: nat := Min(Max0(epochs), if patience < 1 then 1 else patience);
    forall m: nat | m <= c
      ensures After(Start(b), losses, m) == Tracker(b, None, m)
    {
      AfterNoImprovement(b, losses, m);
    }
    StopEpochUnique(Start(b), losses, epochs, patience, c);
  }

  /** Budget 3, patience 1, losses 5, 5, 4 from the sentinel. Epoch 1
      improves, epoch 2 does not (wait 1) and stops the loop; epoch 3 never
      runs; best_val is 5 and epoch 1 is selected. */
  lemma TieThenStopAfterEpoch2()
    ensures var losses := [Finite(5.0), Finite(5.0), Finite(4.0)];
      && StopEpoch(Start(Sentinel), losses, 3, 1) == 2
      && After(Start(Sentinel), losses, 2) == Tracker(5.0, Some(1), 1)
  {
    var losses := [Finite(5.0), Finite(5.0), Finite(4.0)];
    assert After(Start(Sentinel), losses, 1) == Tracker(5.0, Some(1), 0);
    assert After(Start(Sentinel), losses, 2) == Tracker(5.0, Some(1), 1);
    StopEpochUnique(Start(Sentinel), losses, 3, 1, 2);
  }

  // ---- The validation scalar of one batch ----

  /** The evaluator's structured score: metric name to horizon label to value. */
  type Score = map<string, map<string, real>>

  /** The metric that stands for the validation loss. */
  function MetricKey(mask: bool): string {
    if mask then "masked_MAE" else "MAE"
  }

  /** `score[metric]["all"]`; None where the lookup raises a KeyError. */
  function ValidationScalar(score: Score, mask: bool): (r: Option<real>)
    ensures r.Some? <==> MetricKey(mask) in score && "all" in score[MetricKey(mask)]
  {
    var metric := MetricKey(mask);
    if metric in score && "all" in score[metric] then Some(score[metric]["all"]) else None
  }

  /** The masked metric is read exactly when the mask flag is set, and the
      scalar, when there is one, is that metric's "all" entry. */
  lemma MaskSelectsMetric(score: Score, mask: bool)
    ensures MetricKey(mask) == if mask then "masked_MAE" else "MAE"
    ensures ValidationScalar(score, mask).Some? ==> ValidationScalar(score, mask).value == score[MetricKey(mask)]["all"]
  {
  }

  /** The list `valid_loss` after the validation pass: one scalar per batch, in
      batch order; None when some batch's score lacks the metric (the
      KeyError that aborts train). `mask` is the executor's flag as
      `if self.mask:` reads it, that is `Truthy` of the stored option. */
  method ValidationLosses(scores: seq<Score>, mask: bool) returns (r: Option<seq<real>>)
    ensures r.Some? <==> forall i :: 0 <= i < |scores| ==> ValidationScalar(scores[i], mask).Some?
    ensures r.Some? ==> |r.value| == |scores|
    ensures r.Some? ==> forall i :: 0 <= i < |scores| ==> ValidationScalar(scores[i], mask) == Some(r.value[i])
  {
    var validLoss: seq<real> := [];
    for i := 0 to |scores|
      invariant |validLoss| == i
      invariant forall j :: 0 <= j < i ==> ValidationScalar(scores[j], mask) == Some(validLoss[j])
    {
      var vloss := ValidationScalar(scores[i], mask);
      if vloss.None? {
        return None;
      }
      validLoss := validLoss + [vloss.value];
    }
    return Some(validLoss);
  }
}
