# STFGNN training executor: model selection, early stopping, evaluation truncation, config merge

This project models, in Dafny, the control logic of the STFGNN training
executor (`MultiStepExecutor`) and of the driver script, with the neural
network abstracted away:

- **Model selection and early stopping** (`train`). `best_val` starts at the
  sentinel 10000000 and lives in the executor object. `wait` is local to a
  call. An epoch whose mean validation loss is strictly below `best_val`
  becomes the new best: `best_val` takes its value, `wait` goes back to 0 and
  `best_model` is assigned. Any other epoch, a tie or NaN included, adds 1 to
  `wait`. The loop over epochs 1..`epochs` breaks at the first epoch after
  which `wait >= patience`. When `lr_decay` is set, the learning-rate
  scheduler steps once per epoch run. At the end the active model is set to
  `best_model`.
  Each epoch's mean validation loss is an input (`Loss = Finite(real) | NaN`).
  Module `Selection` specifies the bookkeeping as functions (`Step`, `After`,
  `StopEpoch`) and proves the properties as lemmas. The class
  `Executor.MultiStepExecutor` runs the loop imperatively and is proved
  against those functions.
- **Validation scalar.** Each validation batch contributes
  `score["masked_MAE"]["all"]` when `mask` is set, else `score["MAE"]["all"]`.
  A missing key is the KeyError path.
- **Evaluation truncation** (`evaluate`). Per-batch predictions and targets
  are concatenated in iteration order and cut with Python's `[:seq_len]`.
  The rows are inverse-scaled after the cut. Only the result of that cut reaches
  the evaluator. With no test batches, `torch.cat` raises.
- **Configuration.** The executor reads each option with `config.get(key,
  default)`. It stores each value as read, except the device, which goes
  through `torch.device`. The script merges the parsed files so
  that the first file that has a key decides its value. Then it trains and
  saves, or loads, and then evaluates, unless one of those calls raises,
  which ends the script.

The network's parameters are represented only by the number of in-place
training passes applied to the `Network` object. That count is enough to
show which epoch's weights the object holds.

**`best_model` is an alias, not a snapshot.** `best_model = model` stores
a reference to the live network. Training then goes on mutating that same
object, so `model = best_model` at the end changes nothing, and the network
left active after `train` holds the last trained epoch's weights. `Train` proves
`model == old(model)` and that the network has had one training pass per
epoch run. In the scenario losses 5, 5, 4 with patience 1,
`Executor.FreshExecutorScenario` shows that epoch 1 is selected and the
network left active holds the weights after epoch 2. The model also follows
the code on NaN. Python's `nan < best_val` is false, so a NaN epoch counts as
non-improving and never corrupts `best_val`.

## Model

| member | source | states |
|---|---|---|
| `Executor.MultiStepExecutor.constructor` | STFGNN/executor/multi_step_executor.py:22-63 | every option is `config.get` with the source's default (epochs 100, patience 20, lr_decay false, mask true, batch_size 64, num_nodes 0, cuda true, train_loss masked_mae, device spec cpu); `best_val` is the sentinel 10000000; `best_model` not yet assigned |
| `Executor.MultiStepExecutor.Train` | STFGNN/executor/multi_step_executor.py:66-135 | the loop runs exactly `RunLength` epochs; afterwards `best_val`, `best_model` and the scheduler step count are those of the specification after that many epochs; `best_val` never rises; the active network is the same object, trained once per epoch run; a non-integer `epochs` fails before any epoch; a patience that cannot be compared fails after epoch 1; if `best_model` was never assigned the final reassignment fails |
| `Executor.MultiStepExecutor.RunEpochs` | STFGNN/executor/multi_step_executor.py:72-133 | the epoch loop runs exactly `RunLength` epochs, one in-place training pass and (with `lr_decay`) one scheduler step each, and leaves `best_val` and `best_model` as the specification has them after those epochs; it reports the raised comparison exactly when patience is not a number and epoch 1 ran |
| `Executor.MultiStepExecutor.Evaluate` | STFGNN/executor/multi_step_executor.py:146-165 | with no batches it fails (empty concatenation); otherwise the evaluator receives the inverse-scaled `[:seq_len]` prefix of the predictions, and of the targets, concatenated in iteration order |
| `Selection.Step` | STFGNN/executor/multi_step_executor.py:123-129 | one epoch's bookkeeping never raises `best_val`, either keeps the selected epoch or selects this one, and resets `wait` to 0 exactly when the loss is finite and strictly below `best_val` (any other loss, NaN included, adds to `wait`) |
| `Selection.After` | STFGNN/executor/multi_step_executor.py:72-129 | the bookkeeping after the first n epochs, one `Step` per epoch in order, leaves `best_val` at most its value at the call |
| `Selection.RunLength` | STFGNN/executor/multi_step_executor.py:72-133 | the number of epochs a call runs never exceeds the budget (none for a budget below 1); a patience Python cannot compare with `wait` ends the call after epoch 1, when the comparison raises |
| `Selection.StopEpoch` | STFGNN/executor/multi_step_executor.py:72-133 | the number of epochs run is within the budget; no epoch before it had `wait >= patience`; and either the budget is used up or `wait >= patience` after it |
| `Selection.StopEpochUnique` | STFGNN/executor/multi_step_executor.py:72-133 | those three conditions determine the stopping epoch uniquely |
| `Selection.TieIsNotImprovement` | STFGNN/executor/multi_step_executor.py:123-129 | a loss equal to `best_val` keeps `best_val` and the selected epoch and adds 1 to `wait` |
| `Selection.BestValNonIncreasing` | STFGNN/executor/multi_step_executor.py:123-126 | `best_val` after any epoch is at most its value after any earlier epoch |
| `Selection.SelectionAt` | STFGNN/executor/multi_step_executor.py:123-129 | `best_val` is the least of its value at the call and the finite losses seen; if an epoch k was selected, its loss equals `best_val`, beats the value at the call, every earlier loss is strictly larger (first epoch reaching the minimum), later ones are not smaller, and `wait` is n - k; if none was selected, `best_val` is unchanged and `wait` is n |
| `Selection.AfterSingleImprovement` | STFGNN/executor/multi_step_executor.py:123-129 | losses that improve only at epoch 1 keep epoch 1 selected with `wait` = n - 1 after n epochs |
| `Selection.StopAfterSingleImprovement` | STFGNN/executor/multi_step_executor.py:72-133 | improving at epoch 1 and never again stops the loop at epoch min(epochs, 1 + patience) (epoch 1 for patience <= 0), with epoch 1 selected |
| `Selection.AfterImprovingThroughout` | STFGNN/executor/multi_step_executor.py:123-127 | losses that improve at every epoch select each epoch in turn and keep `wait` at 0 |
| `Selection.NoEarlyStopWhileImproving` | STFGNN/executor/multi_step_executor.py:72-133 | with positive patience, losses improving every epoch run the whole budget and select the last epoch |
| `Selection.NonPositivePatienceStopsAfterFirstEpoch` | STFGNN/executor/multi_step_executor.py:131-133 | with patience 0 or less the loop stops after epoch 1 |
| `Selection.AfterNoImprovement` | STFGNN/executor/multi_step_executor.py:123-129 | losses that never beat `best_val` leave it and the selection unchanged, with `wait` counting every epoch |
| `Selection.NoImprovementStopsAtPatience` | STFGNN/executor/multi_step_executor.py:123-135 | a call in which no loss beats the persisted `best_val` selects nothing and runs min(epochs, max(patience, 1)) epochs (so `best_model` keeps whatever an earlier call left, or is missing) |
| `Selection.TieThenStopAfterEpoch2` | STFGNN/executor/multi_step_executor.py:66-133 | budget 3, patience 1, losses 5, 5, 4 from the sentinel: stops after epoch 2 with `best_val` 5, epoch 1 selected, `wait` 1 |
| `Selection.ValidationScalar` | STFGNN/executor/multi_step_executor.py:104-109 | a scalar exists exactly when the score has the chosen metric with an "all" entry |
| `Selection.MaskSelectsMetric` | STFGNN/executor/multi_step_executor.py:106-109 | the masked MAE's "all" value is read exactly when `mask` is set, the plain MAE's otherwise |
| `Selection.ValidationLosses` | STFGNN/executor/multi_step_executor.py:94-111 | the validation list has one scalar per batch, in batch order, and exists exactly when every batch's score has the metric |
| `JsonValues.Get` | STFGNN/executor/multi_step_executor.py:26-63 | `config.get(key, default)`: the configured value when the key is present, the default otherwise |
| `JsonValues.Truthy` | STFGNN/executor/multi_step_executor.py:91-106 | how `if` reads an option (`lr_decay` at line 91, `mask` at line 106): null, false, zero, the empty string, list or dict are false, everything else true |
| `JsonValues.Threshold` | STFGNN/executor/multi_step_executor.py:131 | the integer that `wait` is compared with exists exactly when patience is a number (int, bool or float); strings, lists, dicts and null have none |
| `JsonValues.AsIndex` | STFGNN/executor/multi_step_executor.py:72 | an `epochs` value can bound the range exactly when it is an int or a bool |
| `JsonValues.ThresholdExact` | STFGNN/executor/multi_step_executor.py:131 | comparing `wait` with the integer threshold decides `wait >= patience` exactly as Python does, a real patience p acting as ceil(p), and fails exactly when Python's comparison raises |
| `Evaluation.Flatten` | STFGNN/executor/multi_step_executor.py:158-159 | every row of every batch appears in the concatenation, and the concatenation is empty exactly when every batch is |
| `Evaluation.Truncated` | STFGNN/executor/multi_step_executor.py:158-165 | the evaluator's predictions and targets are no longer than the concatenations, and row i of each is the inverse-scaled row i of its concatenation |
| `Evaluation.FlattenAppend` | STFGNN/executor/multi_step_executor.py:156-159 | appending a batch to the list appends its rows after all earlier rows of the concatenation |
| `Evaluation.FlattenSplit` | STFGNN/executor/multi_step_executor.py:158-159 | concatenation distributes over any split of the batch list |
| `Evaluation.FlattenAt` | STFGNN/executor/multi_step_executor.py:158-159 | row i of batch j sits right after all rows of the batches before it |
| `Evaluation.PyPrefix` | STFGNN/executor/multi_step_executor.py:161-162 | `[:k]` is the prefix of length min(k, total) for k >= 0, and drops the last -k rows for negative k |
| `Evaluation.MapRows` | STFGNN/executor/multi_step_executor.py:164-165 | inverse scaling keeps the number of rows and maps each row by itself |
| `Evaluation.TailNeverReachesEvaluator` | STFGNN/executor/multi_step_executor.py:161-167 | rows at index `seq_len` or later do not influence what the evaluator receives |
| `Evaluation.TruncationKeepsFirstRows` | STFGNN/executor/multi_step_executor.py:158-165 | the evaluator receives exactly min(seq_len, total) prediction rows, row i being the inverse-scaled row i of the concatenation |
| `MainScript.FirstWins` | STFGNN/main.py:10-16 | the merge the script performs: each file in order adds only the keys no earlier file has |
| `MainScript.AddMissing` | STFGNN/main.py:14-16 | merging one file keeps every key and value already present and adds exactly the file's missing keys with the file's values |
| `MainScript.MergeConfigs` | STFGNN/main.py:10-16 | the loop starting from an empty map yields the first-wins merge, whose keys are exactly those of some file |
| `MainScript.MergedKeys` | STFGNN/main.py:10-16 | a key is in the merged config exactly when some file has it |
| `MainScript.MergedValueFromFirstFile` | STFGNN/main.py:11-16 | a key has the value of the first file that has it; no later file overwrites it |
| `MainScript.MergeTwoFiles` | STFGNN/main.py:11-16 | for the script's two files: keys are the union, first-file keys keep the first file's value, second-only keys get the second file's, and the merge equals the second file overridden by the first |
| `MainScript.Plan` | STFGNN/main.py:32-38 | the script trains exactly when `train` is set or the cache file is missing and loads otherwise, as its first call; it saves only after a training call that returned, evaluates only after the first call (and, when training, the save) returned, and then last; no call is made twice, so a call that raises ends the script |
| `MainScript.HardCodedFlagAlwaysTrains` | STFGNN/main.py:30-32 | with `train = True` hard-coded the load branch is unreachable whatever the cache state and the calls' outcomes; train, save and evaluate all run when nothing raises |
| `MainScript.FailedTrainingEndsScript` | STFGNN/main.py:32-38 | a fresh executor with budget 2, patience 5 and two NaN losses fails `train` with the unassigned `best_model`, and the script then makes no further call |

## Left out

- The network's forward and backward passes, `zero_grad`, the optimizer step, device moves and tensor construction: foreign library calls. Each epoch's training is one opaque in-place pass (a counter on `Network`).
- `np.mean` of the per-batch losses: floating-point averaging. Each epoch's mean validation loss is an input of `Train`. So `Train` does not call `ValidationLosses`, and train's abort on a KeyError in the validation pass is modelled only in `ValidationLosses`.
- Executor.MultiStepExecutor.Train: requires one mean validation loss for every epoch of the budget. The losses stand for what the opaque network would produce, not for a demand of the source on its callers.
- Executor.MultiStepExecutor.Train: losses are finite reals or NaN. Infinities are not modelled. A `-inf` loss would become `best_val`.
- `scaler.inverse_transform` and `Evaluator.evaluate`: floating-point numerics in modules that are not part of this model. The inverse transform is an uninterpreted row-wise function passed to `Evaluate`. The evaluator call and the printed report (lines 167-172) are not modelled.
- The constructor's calls into other modules are not modelled: `torch.device(...)` (line 27, which raises on a malformed device), the loss-name dispatch `get_train_loss(...)` (line 49), `Evaluator(config)` (line 24) and `Optim(...)` (lines 53-55). The constructor stores the device spec and the loss name as read; the parameter-count logging (lines 39-46) is telemetry.
- JsonValues.Json: holds finite numbers only. Python's `json.load` also accepts `NaN`, `Infinity` and `-Infinity`; with `"patience": Infinity` the comparison `wait >= patience` is never true and early stopping is off, a case `Threshold` does not represent.
- `save_model` and `load_model` (`torch.save`/`torch.load`, `ensure_dir`): file I/O. `Plan` records only which of them the script calls and takes whether each returns as a parameter.
- The summary writer, logger, `tqdm`, `print` and `time.time()`: telemetry and wall-clock output.
- `self.model.train()` / `eval()` mode switches and `torch.no_grad()`: they have no effect on the bookkeeping.
- JSON file opening and parsing, and the construction of the dataset, model and executor in the script (STFGNN/main.py:12-13, 18-27): I/O and external classes. Parsed files are given as maps. Python iterates a file's keys in insertion order, while the model takes them in any order; the result is the same because a file's keys are distinct.
- The unused `batches_seen` (line 69) and the train-loss list (lines 74, 88, 114), which only feed the printed epoch line.
