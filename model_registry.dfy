/** The model service's registry: a dictionary from model name to one of
    five model kinds, filled from the model directory at start-up and by
    training. Model objects are abstract; whether loading a file succeeds
    is an input (`loads`). */
module ModelRegistry {
  import opened Common

  datatype ModelKind = RandomForest | LinearRegression | XGBoost | LSTM | TSMixer

  /** The registry name each kind answers to. */
  function KindName(kind: ModelKind): string {
    match kind
    case RandomForest => "RandomForest"
    case LinearRegression => "LinearRegression"
    case XGBoost => "XGBoost"
    case LSTM => "LSTM"
    case TSMixer => "TSMixer"
  }

  /** `create_model_instance(model_name, ext)`: a model for exactly the five
      kind names; the extension plays no part. */
  function CreateModelInstance(modelName: string, ext: string): (r: Option<ModelKind>)
    ensures r.Some? <==> exists kind :: KindName(kind) == modelName
    ensures r.Some? ==> KindName(r.value) == modelName
  {
    KindNames(modelName);
    if modelName == "RandomForest" then Some(RandomForest)
    else if modelName == "LinearRegression" then Some(LinearRegression)
    else if modelName == "XGBoost" then Some(XGBoost)
    else if modelName == "LSTM" then Some(LSTM)
    else if modelName == "TSMixer" then Some(TSMixer)
    else None
  }

  /** The five kind names are the only names of kinds. */
  lemma KindNames(name: string)
    ensures (exists kind :: KindName(kind) == name) <==>
              name in {"RandomForest", "LinearRegression", "XGBoost", "LSTM", "TSMixer"}
  {
    if exists kind :: KindName(kind) == name {
      var kind :| KindName(kind) == name;
      match kind
      case RandomForest =>
      case LinearRegression =>
      case XGBoost =>
      case LSTM =>
      case TSMixer =>
    } else {
      assert KindName(RandomForest) != name && KindName(LinearRegression) != name && KindName(XGBoost) != name;
      assert KindName(LSTM) != name && KindName(TSMixer) != name;
    }
  }

  /** Creating a model from a kind's own name gives that kind back, whatever
      the extension. */
  lemma CreateFromKindName(kind: ModelKind, ext: string)
    ensures CreateModelInstance(KindName(kind), ext) == Some(kind)
  {
    match kind
    case RandomForest =>
    case LinearRegression =>
    case XGBoost =>
    case LSTM =>
      assert KindName(kind) != "RandomForest";
    case TSMixer =>
      assert KindName(kind) != "RandomForest";
  }

  /** The start-up scan considers a listed file. */
  predicate Candidate(filename: string) {
    EndsWith(filename, ".joblib") || EndsWith(filename, ".pth")
  }

  /** The start-up scan loads a model for this file: a `.joblib` or `.pth`
      file whose name without its extension is one of the five kind names. */
  predicate Loadable(filename: string)
    ensures Loadable(filename) <==>
              (EndsWith(filename, ".joblib") || EndsWith(filename, ".pth")) &&
              SplitExt(filename).0 in {"RandomForest", "LinearRegression", "XGBoost", "LSTM", "TSMixer"}
  {
    KindNames(SplitExt(filename).0);
    Candidate(filename) && CreateModelInstance(SplitExt(filename).0, SplitExt(filename).1).Some?
  }

  /** The registry names of the files the start-up scan loads. */
  function Names(filenames: seq<string>): (names: set<string>)
    ensures forall name :: name in names ==> exists kind :: KindName(kind) == name
    decreases |filenames|
  {
    if filenames == [] then {}
    else (if Loadable(filenames[0]) then {SplitExt(filenames[0]).0} else {}) + Names(filenames[1..])
  }

  /** Some file the scan loads fails to load. */
  predicate SomeLoadFails(filenames: seq<string>, loads: string -> bool)
    decreases |filenames|
  {
    filenames != [] && ((Loadable(filenames[0]) && !loads(filenames[0])) || SomeLoadFails(filenames[1..], loads))
  }

  /** Every entry holds the kind its name creates. */
  predicate Consistent(registry: map<string, ModelKind>) {
    forall name :: name in registry ==> KindName(registry[name]) == name
  }

  /** The outcome of the start-up scan: the registry it leaves, and whether
      a failed load escaped from it. */
  datatype ScanOutcome = ScanOutcome(registry: map<string, ModelKind>, raised: bool)

  /** `load_all_models()` over the listing `filenames`. A load failure is
      not caught: it ends the scan, keeping what earlier files added. Each
      added entry holds the kind its name creates. */
  function LoadAll(registry: map<string, ModelKind>, filenames: seq<string>, loads: string -> bool): (r: ScanOutcome)
    ensures r.raised <==> SomeLoadFails(filenames, loads)
    ensures registry.Keys <= r.registry.Keys <= registry.Keys + Names(filenames)
    ensures !r.raised ==> r.registry.Keys == registry.Keys + Names(filenames)
    ensures Consistent(registry) ==> Consistent(r.registry)
    ensures forall name :: name in registry && name !in Names(filenames) ==> r.registry[name] == registry[name]
    decreases |filenames|
  {
    if filenames == [] then ScanOutcome(registry, false)
    else
      var filename := filenames[0];
      var parts := SplitExt(filename);
      var model := if Candidate(filename) then CreateModelInstance(parts.0, parts.1) else None;
      assert model.Some? <==> Loadable(filename);
      assert model.Some? ==> KindName(model.value) == parts.0;
      if model.Some? && !loads(filename) then ScanOutcome(registry, true)
      else
        var next := if model.Some? then registry[parts.0 := model.value] else registry;
        assert next.Keys == registry.Keys + (if Loadable(filename) then {parts.0} else {});
        LoadAll(next, filenames[1..], loads)
  }

  /** A failed load ends the scan: the files after it are never looked at,
      and the registry keeps what the files before it added. */
  lemma {:induction false} ScanStopsAtFailure(registry: map<string, ModelKind>, before: seq<string>, filename: string,
                                              after: seq<string>, loads: string -> bool)
    requires Loadable(filename) && !loads(filename) && !SomeLoadFails(before, loads)
    ensures LoadAll(registry, before + [filename] + after, loads) == ScanOutcome(LoadAll(registry, before, loads).registry, true)
    decreases |before|
  {
    var all := before + [filename] + after;
    if before == [] {
      assert all == [filename] + after;
    } else {
      assert all[0] == before[0];
      assert all[1..] == before[1..] + [filename] + after;
      var parts := SplitExt(before[0]);
      var model := if Candidate(before[0]) then CreateModelInstance(parts.0, parts.1) else None;
      var next := if model.Some? then registry[parts.0 := model.value] else registry;
      ScanStopsAtFailure(next, before[1..], filename, after, loads);
    }
  }

  /** The extension a trained model of `kind` is saved under: one of the two
      the start-up scan considers, `.pth` exactly for an LSTM. */
  function SaveExtension(kind: ModelKind): (ext: string)
    ensures ext == ".pth" <==> kind == LSTM
    ensures ext == ".pth" || ext == ".joblib"
  {
    if kind == LSTM then ".pth" else ".joblib"
  }

  /** The file a model is saved to after training: `.pth` for an LSTM,
      `.joblib` for every other kind; splitting it gives back the registry
      name and that extension. */
  function SavePath(modelName: string, kind: ModelKind): (path: string)
    ensures EndsWith(path, ".pth") <==> kind == LSTM
    ensures EndsWith(path, ".joblib") <==> kind != LSTM
    ensures KindName(kind) == modelName ==> SplitExt(path) == (modelName, SaveExtension(kind))
  {
    var path := modelName + SaveExtension(kind);
    SavePathFacts(modelName, kind, path);
    path
  }

  lemma SavePathFacts(modelName: string, kind: ModelKind, path: string)
    requires path == modelName + SaveExtension(kind)
    ensures EndsWith(path, ".pth") <==> kind == LSTM
    ensures EndsWith(path, ".joblib") <==> kind != LSTM
    ensures KindName(kind) == modelName ==> SplitExt(path) == (modelName, SaveExtension(kind))
  {
    var ext := SaveExtension(kind);
    var n := |path|;
    assert path[n - |ext|..] == ext;
    assert path[n - 1] == ext[|ext| - 1];
    if KindName(kind) == modelName {
      assert path[..n - |ext|] == modelName;
      assert |modelName| > 0 && path[n - |ext| - 1] == modelName[|modelName| - 1];
      SplitExtOfSuffix(path, ext);
    }
  }

  /** A model saved after training under its kind's name is picked up again
      by the next start-up scan, as the same kind. */
  lemma SavedModelIsLoadable(kind: ModelKind)
    ensures Loadable(SavePath(KindName(kind), kind))
    ensures SplitExt(SavePath(KindName(kind), kind)).0 == KindName(kind)
  {
    var path := SavePath(KindName(kind), kind);
    CreateFromKindName(kind, SaveExtension(kind));
    assert SplitExt(path) == (KindName(kind), SaveExtension(kind));
  }

  class ModelManager {
    var availableModels: map<string, ModelKind>

    /** Every entry holds the kind its name creates. */
    predicate Valid()
      reads this
    {
      Consistent(availableModels)
    }

    /** `__init__` up to the start-up scan, which is `LoadAllModels`. */
    constructor ()
      ensures Valid() && availableModels == map[]
    {
      availableModels := map[];
    }

    /** `load_all_models()` over the listing `filenames`; `raised` reports
        a load failure that escaped. */
    method LoadAllModels(filenames: seq<string>, loads: string -> bool) returns (raised: bool)
      requires Valid()
      modifies this
      ensures Valid()
      ensures ScanOutcome(availableModels, raised) == LoadAll(old(availableModels), filenames, loads)
    {
      var i := 0;
      while i < |filenames|
        invariant 0 <= i <= |filenames|
        invariant LoadAll(availableModels, filenames[i..], loads) == LoadAll(old(availableModels), filenames, loads)
      {
        var filename := filenames[i];
        assert filenames[i..][0] == filename;
        assert filenames[i..][1..] == filenames[i + 1..];
        if EndsWith(filename, ".joblib") || EndsWith(filename, ".pth") {
          var parts := SplitExt(filename);
          var model := CreateModelInstance(parts.0, parts.1);
          if model.Some? {
            if !loads(filename) {
              assert LoadAll(availableModels, filenames[i..], loads) == ScanOutcome(availableModels, true);
              return true;
            }
            availableModels := availableModels[parts.0 := model.value];
          }
        }
        i := i + 1;
      }
      assert filenames[i..] == [];
      return false;
    }

    /** `train_model(model_name, X, y)`: reuses the registered model or
        registers a new one before training; on success returns the file
        the model is saved to. */
    method TrainModel(modelName: string) returns (r: Option<string>)
      requires Valid()
      modifies this
      ensures Valid()
      ensures r.None? <==> modelName !in old(availableModels) && CreateModelInstance(modelName, ".joblib").None?
      ensures r.None? ==> availableModels == old(availableModels)
      ensures r.Some? ==> modelName in availableModels &&
                          availableModels == old(availableModels)[modelName := availableModels[modelName]] &&
                          (modelName in old(availableModels) ==> availableModels == old(availableModels)) &&
                          r.value == SavePath(modelName, availableModels[modelName])
      ensures r.Some? ==> (EndsWith(r.value, ".pth") <==> modelName == "LSTM")
    {
      var model := if modelName in availableModels then Some(availableModels[modelName]) else None;
      if model.None? {
        model := CreateModelInstance(modelName, ".joblib");
        if model.None? {
          return None;
        }
        availableModels := availableModels[modelName := model.value];
      }
      var kind := model.value;
      assert KindName(kind) == modelName;
      assert kind == LSTM <==> modelName == "LSTM";
      return Some(SavePath(modelName, kind));
    }

    /** The lookup in `predict(model_name, X)`: the registered model, or
        `None` where the source raises `ValueError`. */
    function Predict(modelName: string): (r: Option<ModelKind>)
      reads this
      ensures r.None? <==> modelName !in availableModels
      ensures r.Some? ==> r.value == availableModels[modelName]
      ensures r.Some? && Valid() ==> KindName(r.value) == modelName
    {
      if modelName in availableModels then Some(availableModels[modelName]) else None
    }

    /** `list_models()`: the registered names. */
    function ListModels(): (r: set<string>)
      reads this
      ensures forall name :: name in r <==> Predict(name).Some?
      ensures Valid() ==> forall name :: name in r ==> exists kind :: KindName(kind) == name
    {
      availableModels.Keys
    }
  }
}
