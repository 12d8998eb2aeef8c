/** The analysis service's model registry: a dictionary from model name to
    TSMixer model, filled from the model directory at start-up and by
    training and explicit loads. Only names starting with `TSMixer` are
    admitted. Model files are not read here: whether loading a file
    succeeds is an input (`loads`, `loadFails`). */
module TsMixerRegistry {
  import opened Common

  const NamePrefix := "TSMixer"
  const ModelSuffix := ".pt"

  /** Where a registered model's weights came from. */
  datatype Origin = Untrained | LoadedFrom(file: string) | Trained

  datatype TsMixerModel = TsMixerModel(origin: Origin)

  /** The classes of exception the registry raises: `ValueError` (its own,
      or one raised by `model.load`), and any other exception of a failed
      `model.load`, which it re-raises. */
  datatype Raised = ValueError | OtherError

  datatype Result<T> = Ok(value: T) | Err(error: Raised)

  /** `create_model_instance(model_name)` */
  function CreateModelInstance(modelName: string): (r: Option<TsMixerModel>)
    ensures r.Some? <==> StartsWith(modelName, NamePrefix)
    ensures r.Some? ==> r.value.origin == Untrained
  {
    if StartsWith(modelName, NamePrefix) then Some(TsMixerModel(Untrained)) else None
  }

  /** The stem `os.path.splitext(filename)[0]`. */
  function Stem(filename: string): string {
    SplitExt(filename).0
  }

  /** Scanning `filename` at start-up registers a model under its stem. */
  predicate Registrable(filename: string, loads: string -> bool) {
    EndsWith(filename, ModelSuffix) && StartsWith(Stem(filename), NamePrefix) && loads(filename)
  }

  /** The names the start-up scan of `filenames` registers. */
  function Registered(filenames: seq<string>, loads: string -> bool): (names: set<string>)
    ensures forall name :: name in names ==> StartsWith(name, NamePrefix)
    decreases |filenames|
  {
    if filenames == [] then {}
    else (if Registrable(filenames[0], loads) then {Stem(filenames[0])} else {}) + Registered(filenames[1..], loads)
  }

  /** A name is registered iff some listed file with that stem is
      registrable. */
  lemma {:induction false} RegisteredMembers(filenames: seq<string>, loads: string -> bool, name: string)
    ensures name in Registered(filenames, loads) <==>
              exists i :: 0 <= i < |filenames| && Registrable(filenames[i], loads) && Stem(filenames[i]) == name
    decreases |filenames|
  {
    if filenames != [] {
      RegisteredMembers(filenames[1..], loads, name);
      if name in Registered(filenames[1..], loads) {
        var i :| 0 <= i < |filenames[1..]| && Registrable(filenames[1..][i], loads) && Stem(filenames[1..][i]) == name;
        assert filenames[i + 1] == filenames[1..][i];
      }
      if exists i :: 0 <= i < |filenames| && Registrable(filenames[i], loads) && Stem(filenames[i]) == name {
        var i :| 0 <= i < |filenames| && Registrable(filenames[i], loads) && Stem(filenames[i]) == name;
        if i > 0 {
          assert filenames[1..][i - 1] == filenames[i];
        }
      }
    }
  }

  /** One iteration of the start-up scan. A failed load is logged and the
      entry left as it was. */
  function LoadOne(registry: map<string, TsMixerModel>, filename: string, loads: string -> bool): (r: map<string, TsMixerModel>)
    ensures r.Keys == registry.Keys + (if Registrable(filename, loads) then {Stem(filename)} else {})
    ensures Registrable(filename, loads) ==> r[Stem(filename)] == TsMixerModel(LoadedFrom(filename))
    ensures forall name :: name in registry && (name != Stem(filename) || !Registrable(filename, loads)) ==>
              r[name] == registry[name]
  {
    if EndsWith(filename, ModelSuffix) && CreateModelInstance(Stem(filename)).Some? && loads(filename)
    then registry[Stem(filename) := TsMixerModel(LoadedFrom(filename))]
    else registry
  }

  /** The whole start-up scan over `filenames` in listing order: exactly
      the stems of the loadable `TSMixer*.pt` files are added, every
      failure is skipped, and untouched entries keep their models. */
  function LoadAll(registry: map<string, TsMixerModel>, filenames: seq<string>, loads: string -> bool): (r: map<string, TsMixerModel>)
    ensures r.Keys == registry.Keys + Registered(filenames, loads)
    ensures forall name :: name in registry && name !in Registered(filenames, loads) ==> r[name] == registry[name]
    ensures forall name :: name in Registered(filenames, loads) ==>
              r[name].origin.LoadedFrom? && r[name].origin.file in filenames && Stem(r[name].origin.file) == name
    decreases |filenames|
  {
    if filenames == [] then registry
    else LoadAll(LoadOne(registry, filenames[0], loads), filenames[1..], loads)
  }

  class ModelManager {
    var availableModels: map<string, TsMixerModel>

    /** Every registered name starts with `TSMixer`. */
    predicate Valid()
      reads this
    {
      forall name :: name in availableModels ==> StartsWith(name, NamePrefix)
    }

    /** `__init__`: an empty registry, then the start-up scan over the
        directory listing `filenames`. */
    constructor (filenames: seq<string>, loads: string -> bool)
      ensures Valid()
      ensures availableModels == LoadAll(map[], filenames, loads)
    {
      availableModels := map[];
      new;
      LoadAllModels(filenames, loads);
    }

    /** `load_all_models()` over the listing `filenames`. */
    method LoadAllModels(filenames: seq<string>, loads: string -> bool)
      requires Valid()
      modifies this
      ensures Valid()
      ensures availableModels == LoadAll(old(availableModels), filenames, loads)
    {
      var i := 0;
      while i < |filenames|
        invariant 0 <= i <= |filenames|
        invariant LoadAll(availableModels, filenames[i..], loads) == LoadAll(old(availableModels), filenames, loads)
      {
        var filename := filenames[i];
        assert filenames[i..][1..] == filenames[i + 1..];
        if EndsWith(filename, ModelSuffix) {
          var modelName := SplitExt(filename).0;
          var model := CreateModelInstance(modelName);
          if model.Some? {
            if loads(filename) {
              availableModels := availableModels[modelName := TsMixerModel(LoadedFrom(filename))];
            }
          }
        }
        i := i + 1;
      }
      assert filenames[i..] == [];
    }

    /** `train_model(model_name, series)`: on success returns the file the
        trained model is saved to. */
    method TrainModel(modelName: string) returns (r: Result<string>)
      requires Valid()
      modifies this
      ensures Valid()
      ensures r.Err? <==> !StartsWith(modelName, NamePrefix)
      ensures r.Err? ==> r.error == ValueError && availableModels == old(availableModels)
      ensures r.Ok? ==> r.value == modelName + ModelSuffix &&
                        availableModels == old(availableModels)[modelName := TsMixerModel(Trained)]
    {
      if !StartsWith(modelName, NamePrefix) {
        return Err(ValueError);
      }
      var modelFilepath := modelName + ModelSuffix;
      availableModels := availableModels[modelName := TsMixerModel(Trained)];
      return Ok(modelFilepath);
    }

    /** The lookup in `predict(model_name, series)`: the model that
        produces the forecast, or `ValueError` for an unknown name. */
    function Predict(modelName: string): (r: Result<TsMixerModel>)
      reads this
      ensures r.Err? <==> modelName !in availableModels
      ensures r.Err? ==> r.error == ValueError
      ensures r.Ok? ==> r.value == availableModels[modelName]
    {
      if modelName in availableModels then Ok(availableModels[modelName]) else Err(ValueError)
    }

    /** `load_model(model_name, file_path, model_type)`; `loadFails` is the
        exception reading `filePath` raises, `None` when it succeeds. */
    method LoadModel(modelName: string, filePath: string, modelType: string, loadFails: Option<Raised>)
      returns (r: Result<()>)
      requires Valid()
      modifies this
      ensures Valid()
      ensures r.Ok? <==> modelType == "TSMixer" && StartsWith(modelName, NamePrefix) && loadFails.None?
      ensures r.Err? ==> availableModels == old(availableModels)
      ensures modelType != "TSMixer" || !StartsWith(modelName, NamePrefix) ==> r == Err(ValueError)
      ensures modelType == "TSMixer" && StartsWith(modelName, NamePrefix) && loadFails.Some? ==>
                r == Err(loadFails.value)
      ensures r.Ok? ==> availableModels == old(availableModels)[modelName := TsMixerModel(LoadedFrom(filePath))]
    {
      if modelType == "TSMixer" {
        if !StartsWith(modelName, NamePrefix) {
          return Err(ValueError);
        }
        var model := TsMixerModel(Untrained);
        if loadFails.None? {
          model := TsMixerModel(LoadedFrom(filePath));
          availableModels := availableModels[modelName := model];
          return Ok(());
        } else {
          return Err(loadFails.value);
        }
      } else {
        return Err(ValueError);
      }
    }

    /** `list_models()`: the registered names. */
    function ListModels(): (r: set<string>)
      reads this
      ensures forall name :: name in r <==> Predict(name).Ok?
      ensures Valid() ==> forall name :: name in r ==> StartsWith(name, NamePrefix)
    {
      availableModels.Keys
    }
  }
}
