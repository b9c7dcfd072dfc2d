/**
  The driver script: the configuration is the merge of the dataset's file
  and the model's file, the first file winning on a shared key; then the
  executor either trains and saves, or loads a cached checkpoint, and then
  evaluates, unless one of those calls raises.
 */
module MainScript {
  import opened JsonValues
  import Wrappers
  import Selection
  import Executor

  /** `files[0]`'s entries, then every entry of a later file whose key no
      earlier file has. */
  function FirstWins(files: seq<Config>): Config {
    if files == [] then map[]
    else AddMissing(FirstWins(files[..|files| - 1]), files[|files| - 1])
  }

  /** The entries of `file` whose key is not yet in `config`, added to it. */
  function AddMissing(config: Config, file: Config): (r: Config)
    ensures r.Keys == config.Keys + file.Keys
    ensures forall k :: k in config ==> r[k] == config[k]
    ensures forall k :: k in file && k !in config ==> r[k] == file[k]
  {
    map k | k in config.Keys + file.Keys :: if k in config then config[k] else file[k]
  }

  /** Some file of the list has the key. */
  predicate InSome(files: seq<Config>, key: string) {
    exists i :: 0 <= i < |files| && key in files[i]
  }

  /** The merged key set is exactly the union of the files' key sets. */
  lemma {:induction false} MergedKeys(files: seq<Config>, key: string)
    ensures key in FirstWins(files) <==> InSome(files, key)
  {
    if files != [] {
      var init := files[..|files| - 1];
      MergedKeys(init, key);
      if InSome(init, key) {
        var i :| 0 <= i < |init| && key in init[i];
        assert key in files[i];
      }
      if InSome(files, key) && !(key in files[|files| - 1]) {
        var i :| 0 <= i < |files| && key in files[i];
        assert key in init[i];
      }
    }
  }

  /** A key takes its value from the first file that has it; no later file
      overwrites it. */
  lemma {:induction false} MergedValueFromFirstFile(files: seq<Config>, i: nat, key: string)
    requires i < |files| && key in files[i]
    requires forall j :: 0 <= j < i ==> key !in files[j]
    ensures key in FirstWins(files) && FirstWins(files)[key] == files[i][key]
  {
    var init := files[..|files| - 1];
    if i < |files| - 1 {
      MergedValueFromFirstFile(init, i, key);
    } else {
      MergedKeys(init, key);
      assert forall j :: 0 <= j < |init| ==> key !in init[j] && init[j] == files[j];
    }
  }

  /** The two files of the script: every key of the first file keeps that
      file's value, a key only the second file has gets the second file's
      value, and nothing else appears. As a map, the merge is the second file
      overridden by the first. */
  lemma MergeTwoFiles(dataset: Config, model: Config)
    ensures var c := FirstWins([dataset, model]);
      && c.Keys == dataset.Keys + model.Keys
      && (forall k :: k in dataset ==> c[k] == dataset[k])
      && (forall k :: k in model && k !in dataset ==> c[k] == model[k])
      && c == model + dataset
  {
    var files := [dataset, model];
    assert files[..1] == [dataset];
    assert [dataset][..0] == [];
    assert FirstWins([dataset]) == AddMissing(map[], dataset);
    assert AddMissing(map[], dataset) == dataset;
    assert FirstWins(files) == AddMissing(dataset, model);
  }

  /** The merge loop of the script over its list of parsed files: for each
      file, for each key, `if key not in config: config[key] = file[key]`. */
  method MergeConfigs(files: seq<Config>) returns (config: Config)
    ensures config == FirstWins(files)
    ensures forall k :: k in config <==> InSome(files, k)
  {
    config := map[];
    for i := 0 to |files|
      invariant config == FirstWins(files[..i])
    {
      ghost var before := config;
      var file := files[i];
      var pending := file.Keys;
      while pending != {}
        invariant pending <= file.Keys
        invariant config.Keys == before.Keys + (file.Keys - pending)
        invariant forall k :: k in config ==> config[k] == if k in before then before[k] else file[k]
        decreases pending
      {
        var key :| key in pending;
        if key !in config {
          config := config[key := file[key]];
        }
        pending := pending - {key};
      }
      assert config == AddMissing(before, file);
      assert files[..i + 1][..i] == files[..i];
    }
    assert files[..|files|] == files;
    forall k
      ensures k in config <==> InSome(files, k)
    {
      MergedKeys(files, k);
    }
  }

  /** The executor calls the script makes. */
  datatype Call = Train | SaveModel | LoadModel | Evaluate

  /** The flag `train` as the script hard-codes it. */
  const TrainFlag: bool := true

  /** `if train or not os.path.exists(cache): train; save else: load`, then
      evaluate. `firstReturns` says whether the first call (`train` or
      `load_model`) returns normally and `saveReturns` whether `save_model`
      does; a call that raises ends the script, so nothing after it runs. */
  function Plan(train: bool, cacheExists: bool, firstReturns: bool, saveReturns: bool): (calls: seq<Call>)
    ensures |calls| >= 1 && calls[0] == (if train || !cacheExists then Train else LoadModel)
    ensures (Train in calls) <==> (train || !cacheExists)
    ensures (LoadModel in calls) <==> !(Train in calls)
    ensures (SaveModel in calls) <==> (Train in calls && firstReturns)
    ensures (SaveModel in calls) ==> calls[1] == SaveModel
    ensures (Evaluate in calls) <==> firstReturns && (Train in calls ==> saveReturns)
    ensures (Evaluate in calls) ==> calls[|calls| - 1] == Evaluate
    ensures forall i, j :: 0 <= i < j < |calls| ==> calls[i] != calls[j]
  {
    if train || !cacheExists then
      if !firstReturns then [Train]
      else if !saveReturns then [Train, SaveModel]
      else [Train, SaveModel, Evaluate]
    else if !firstReturns then [LoadModel]
    else [LoadModel, Evaluate]
  }

  /** With the flag hard-coded to true the load branch is unreachable,
      whether or not the checkpoint file exists. */
  lemma HardCodedFlagAlwaysTrains(cacheExists: bool, firstReturns: bool, saveReturns: bool)
    ensures Plan(TrainFlag, cacheExists, firstReturns, saveReturns)[0] == Train
    ensures LoadModel !in Plan(TrainFlag, cacheExists, firstReturns, saveReturns)
    ensures firstReturns && saveReturns ==>
      Plan(TrainFlag, cacheExists, firstReturns, saveReturns) == [Train, SaveModel, Evaluate]
  {
  }

  /** A fresh executor whose two validation losses are NaN never beats the
      sentinel, so `train` raises on the unassigned `best_model`, and the
      script ends after that call: nothing is saved or evaluated. */
  method FailedTrainingEndsScript() {
    var net := new Executor.Network();
    var ex := new Executor.MultiStepExecutor(map["epochs" := JInt(2), "patience" := JInt(5)], net);
    var losses := [Selection.NaN, Selection.NaN];
    Selection.NoImprovementStopsAtPatience(Selection.Sentinel, losses, 2, 5);
    var r := ex.Train(losses);
    assert r == Wrappers.Fail(Executor.NoBestModel);
    assert Plan(TrainFlag, false, r.Pass?, true) == [Train];
  }
}
