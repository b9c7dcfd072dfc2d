/**
  The executor object: the options it reads from the configuration, its
  persisted selection state (`best_val`, `best_model`), the epoch loop of
  `train` and the collection step of `evaluate`.
 */
module Executor {
  import opened Wrappers
  import opened Ints
  import opened JsonValues
  import opened Selection
  import opened Evaluation

  /** The live network. Its parameters are changed in place by every epoch's
      training pass; the model keeps only the number of passes applied, which
      tells which epoch's weights the object holds. */
  class Network {
    var passes: nat

    constructor ()
      ensures passes == 0
    {
      passes := 0;
    }
  }

  datatype TrainError =
    | EpochsNotInteger       // `range(1, self.epochs + 1)` raises a TypeError
    | PatienceNotComparable  // `wait >= self.patience` raises a TypeError
    | NoBestModel            // `self.best_model` was never assigned: AttributeError

  datatype EvalError =
    | NoTestBatches          // `torch.cat([])` raises on an empty list

  class MultiStepExecutor {
    const config: Config
    var model: Network
    /** null while the attribute `best_model` has never been assigned. */
    var bestModel: Network?
    var bestVal: real
    /** How often `optim.lr_scheduler.step()` has run. */
    var schedulerSteps: nat

    /** The argument `_device` that `torch.device` receives; the default
        `torch.device('cpu')` is written as the string "cpu". */
    const deviceSpec: Json
    const trainLoss: Json
    const cuda: Json
    const epochs: Json
    const numNodes: Json
    const batchSize: Json
    const patience: Json
    const lrDecay: Json
    const mask: Json

    /** `best_model` is a reference to the live network, never a copy; and
        `best_val` has only come down from the sentinel. */
    ghost predicate Valid()
      reads this
    {
      && (bestModel == null || bestModel == model)
      && bestVal <= Sentinel
    }

    /** `__init__`: every option is `config.get(key, default)`. Each is stored
        as read, except the device spec, which `torch.device` converts. */
    constructor (config: Config, model: Network)
      ensures Valid()
      ensures this.config == config && this.model == model && bestModel == null
      ensures bestVal == Sentinel && schedulerSteps == 0
      ensures deviceSpec == Get(config, "device", JStr("cpu"))
      ensures trainLoss == Get(config, "train_loss", JStr("masked_mae"))
      ensures cuda == Get(config, "cuda", JBool(true))
      ensures epochs == Get(config, "epochs", JInt(100))
      ensures numNodes == Get(config, "num_nodes", JInt(0))
      ensures batchSize == Get(config, "batch_size", JInt(64))
      ensures patience == Get(config, "patience", JInt(20))
      ensures lrDecay == Get(config, "lr_decay", JBool(false))
      ensures mask == Get(config, "mask", JBool(true))
    {
      this.config := config;
      this.model := model;
      deviceSpec := Get(config, "device", JStr("cpu"));
      trainLoss := Get(config, "train_loss", JStr("masked_mae"));
      cuda := Get(config, "cuda", JBool(true));
      bestVal := Sentinel;
      schedulerSteps := 0;
      epochs := Get(config, "epochs", JInt(100));
      numNodes := Get(config, "num_nodes", JInt(0));
      batchSize := Get(config, "batch_size", JInt(64));
      patience := Get(config, "patience", JInt(20));
      lrDecay := Get(config, "lr_decay", JBool(false));
      mask := Get(config, "mask", JBool(true));
      bestModel := null;
    }

    /** `train`, given each epoch's mean validation loss (`losses[e - 1]` for
        epoch e; one for every epoch of the budget). The epochs run, the new
        `best_val` and the selected epoch are those of the specification in
        module Selection. Because `best_model` aliases the live network, the
        network that stays active has been trained for every epoch run, not
        only up to the selected one. */
    method Train(losses: seq<Loss>) returns (r: Outcome<TrainError>)
      requires Valid()
      requires AsIndex(epochs).Some? ==> AsIndex(epochs).value <= |losses|
      modifies this, model
      ensures Valid() && model == old(model) && bestVal <= old(bestVal)
      ensures AsIndex(epochs).None? ==>
        && r == Fail(EpochsNotInteger)
        && bestVal == old(bestVal) && bestModel == old(bestModel)
        && schedulerSteps == old(schedulerSteps) && model.passes == old(model.passes)
      ensures AsIndex(epochs).Some? ==>
        var n := RunLength(Start(old(bestVal)), losses, AsIndex(epochs).value, Threshold(patience));
        var t := After(Start(old(bestVal)), losses, n);
        && bestVal == t.bestVal
        && bestModel == (if t.best.Some? then model else old(bestModel))
        && model.passes == old(model.passes) + n
        && schedulerSteps == old(schedulerSteps) + (if Truthy(lrDecay) then n else 0)
        && r == (if Threshold(patience).None? && n == 1 then Fail(PatienceNotComparable)
                 else if bestModel == null then Fail(NoBestModel)
                 else Pass)
    {
      var budget := AsIndex(epochs);
      if budget.None? {
        return Fail(EpochsNotInteger);
      }
      var ran, raised := RunEpochs(losses, budget.value, Threshold(patience));
      if raised {
        r := Fail(PatienceNotComparable);
      } else if bestModel == null {
        r := Fail(NoBestModel);
      } else {
        model := bestModel;
        r := Pass;
      }
    }

    /** The epoch loop of `train`: `for epoch in range(1, last + 1)`, one
        training pass, the scheduler step, the bookkeeping of module
        Selection, and the early-stop test against `threshold` (None when
        `wait >= patience` raises, which leaves the loop after epoch 1). */
    method RunEpochs(losses: seq<Loss>, last: int, threshold: Option<int>) returns (ran: nat, raised: bool)
      requires Valid() && last <= |losses|
      modifies this, model
      ensures Valid() && model == old(model) && bestVal <= old(bestVal)
      ensures ran == RunLength(Start(old(bestVal)), losses, last, threshold)
      ensures raised <==> threshold.None? && ran == 1
      ensures var t := After(Start(old(bestVal)), losses, ran);
        && bestVal == t.bestVal
        && bestModel == (if t.best.Some? then model else old(bestModel))
      ensures model.passes == old(model.passes) + ran
      ensures schedulerSteps == old(schedulerSteps) + (if Truthy(lrDecay) then ran else 0)
    {
      ghost var t0 := Start(bestVal);
      ghost var t := t0;
      ran := 0;
      raised := false;
      var wait := 0;
      var epoch := 1;
      while epoch <= last
        invariant 1 <= epoch <= Max0(last) + 1 && ran == epoch - 1
        invariant t == After(t0, losses, ran)
        invariant bestVal == t.bestVal && wait == t.wait
        invariant bestModel == (if t.best.Some? then model else old(bestModel))
        invariant model == old(model) && model.passes == old(model.passes) + ran
        invariant schedulerSteps == old(schedulerSteps) + (if Truthy(lrDecay) then ran else 0)
        invariant threshold.Some? ==> forall m: nat :: 1 <= m <= ran ==> After(t0, losses, m).wait < threshold.value
        invariant threshold.None? ==> ran == 0
        invariant !raised
      {
        // shuffle and one training pass over the batches: the weights change in place
        model.passes := model.passes + 1;
        if Truthy(lrDecay) {
          schedulerSteps := schedulerSteps + 1;
        }
        var mvalidLoss := losses[epoch - 1];
        if mvalidLoss.Finite? && mvalidLoss.value < bestVal {
          bestVal := mvalidLoss.value;
          wait := 0;
          bestModel := model;
        } else {
          wait := wait + 1;
        }
        t := Step(t, epoch, mvalidLoss);
        ran := epoch;
        if threshold.None? {
          // `wait >= patience` raises: the TypeError leaves the loop
          raised := true;
          break;
        }
        if wait >= threshold.value {
          break;
        }
        epoch := epoch + 1;
      }
      assert ran <= Max0(last) && t == After(t0, losses, ran);
      if threshold.Some? {
        StopEpochUnique(t0, losses, last, threshold.value, ran);
      }
    }

    /** `evaluate` up to the evaluator call: the batches' predictions and
        targets in iteration order, concatenated, cut to `[:seq_len]` and
        inverse-scaled. */
    method Evaluate(batches: seq<TestBatch>, seqLen: int, inverse: Row -> Row) returns (r: Result<EvalInput, EvalError>)
      ensures r.Failure? <==> batches == []
      ensures r.Success? ==> r.value == Truncated(batches, seqLen, inverse)
    {
      var outputs: seq<seq<Row>> := [];
      var realy: seq<seq<Row>> := [];
      for i := 0 to |batches|
        invariant outputs == Preds(batches[..i])
        invariant realy == Targets(batches[..i])
      {
        outputs := outputs + [batches[i].pred];
        realy := realy + [batches[i].target];
      }
      assert batches[..|batches|] == batches;
      if realy == [] {
        return Failure(NoTestBatches);
      }
      var realyRows := PyPrefix(Flatten(realy), seqLen);
      var yhat := PyPrefix(Flatten(outputs), seqLen);
      var targets := MapRows(inverse, realyRows);
      var preds := MapRows(inverse, yhat);
      return Success(EvalInput(preds, targets));
    }
  }

  /** A fresh executor with budget 3, patience 1 and losses 5, 5, 4: the
      loop stops after epoch 2 with best_val 5 and epoch 1 selected, yet the
      network left active carries the weights of epoch 2, since best_model
      is the live network itself. */
  method FreshExecutorScenario() {
    var net := new Network();
    var ex := new MultiStepExecutor(map["epochs" := JInt(3), "patience" := JInt(1)], net);
    var losses := [Finite(5.0), Finite(5.0), Finite(4.0)];
    TieThenStopAfterEpoch2();
    var r := ex.Train(losses);
    assert r == Pass && ex.bestVal == 5.0;
    assert ex.model == net && ex.bestModel == net && net.passes == 2;
  }
}
