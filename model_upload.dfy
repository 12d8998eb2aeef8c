/** The model service's request checks: the validation and error mapping of
    the upload endpoint, and the not-found check of the predict endpoint.
    Writing the file, parsing the keyword arguments and loading the model
    are not modelled; their outcomes are inputs. */
module ModelUpload {
  import opened Common
  import Registry = ModelRegistry

  /** The endpoint's answer: the registered name, or an HTTP error status. */
  datatype Response = Uploaded(modelName: string) | HttpError(status: int)

  /** How loading the stored file ends: it succeeds, raises `ValueError`, or
      raises anything else. */
  datatype LoadOutcome = LoadOk | LoadValueError | LoadOtherError

  /** The file name passes the suffix check. */
  predicate SuffixAllowed(filename: string) {
    EndsWith(filename, ".joblib") || EndsWith(filename, ".pt")
  }

  /** The extension the upload of a model of type `modelType` must carry. */
  function ExpectedExtension(modelType: string): string {
    if modelType == "TSMixer" then ".pt" else ".joblib"
  }

  /** `if model_kwargs:` is false: the field is missing or empty. */
  predicate KwargsAbsent(modelKwargs: Option<string>) {
    modelKwargs.None? || modelKwargs.value == ""
  }

  /** `upload_model(file, model_type, model_kwargs)`. `saved` says whether
      writing the file succeeds, `kwargsParse` whether the keyword arguments
      are valid JSON, `load` how loading the model ends. */
  function UploadModel(filename: string, modelType: string, modelKwargs: Option<string>,
                       saved: bool, kwargsParse: bool, load: LoadOutcome): (r: Response)
    ensures r.Uploaded? <==> SuffixAllowed(filename) && SplitExt(filename).1 == ExpectedExtension(modelType) &&
                             saved && (KwargsAbsent(modelKwargs) || kwargsParse) && load == LoadOk
    ensures r.Uploaded? ==> r.modelName + ExpectedExtension(modelType) == filename
    ensures r.HttpError? ==> r.status == 400 || r.status == 500
    ensures !SuffixAllowed(filename) ==> r == HttpError(400)
    ensures SuffixAllowed(filename) && SplitExt(filename).1 != ExpectedExtension(modelType) ==> r == HttpError(400)
    ensures r == HttpError(500) <==> SuffixAllowed(filename) && SplitExt(filename).1 == ExpectedExtension(modelType) &&
                                     (!saved || ((KwargsAbsent(modelKwargs) || kwargsParse) && load == LoadOtherError))
  {
    if !EndsWith(filename, ".joblib") && !EndsWith(filename, ".pt") then HttpError(400)
    else
      var parts := SplitExt(filename);
      var modelName := parts.0;
      var ext := parts.1;
      if modelType != "TSMixer" && ext != ".joblib" then HttpError(400)
      else if modelType == "TSMixer" && ext != ".pt" then HttpError(400)
      else if !saved then HttpError(500)
      else if !KwargsAbsent(modelKwargs) && !kwargsParse then HttpError(400)
      else
        match load
        case LoadOk => Uploaded(modelName)
        case LoadValueError => HttpError(400)
        case LoadOtherError => HttpError(500)
  }

  /** The endpoint as written: the registry it calls has no `load_model`
      method, so the call raises `AttributeError`, which the handler's last
      `except Exception` turns into a 500 on every request that reaches it. */
  function UploadModelAsWritten(filename: string, modelType: string, modelKwargs: Option<string>,
                                saved: bool, kwargsParse: bool): (r: Response)
    ensures !r.Uploaded?
    ensures r == HttpError(500) <==> SuffixAllowed(filename) && SplitExt(filename).1 == ExpectedExtension(modelType) &&
                                     (!saved || KwargsAbsent(modelKwargs) || kwargsParse)
  {
    UploadModel(filename, modelType, modelKwargs, saved, kwargsParse, LoadOtherError)
  }

  /** Every upload the intended endpoint accepts fails with a 500 as
      written. */
  lemma AsWrittenRejectsValidUpload(filename: string, modelType: string, modelKwargs: Option<string>,
                                    saved: bool, kwargsParse: bool)
    requires UploadModel(filename, modelType, modelKwargs, saved, kwargsParse, LoadOk).Uploaded?
    ensures UploadModelAsWritten(filename, modelType, modelKwargs, saved, kwargsParse) == HttpError(500)
  {
  }

  /** Only the pairs (`TSMixer`, `.pt`) and (any other type, `.joblib`)
      are ever accepted. */
  lemma AcceptedPairs(filename: string, modelType: string, modelKwargs: Option<string>,
                      saved: bool, kwargsParse: bool, load: LoadOutcome)
    requires UploadModel(filename, modelType, modelKwargs, saved, kwargsParse, load).Uploaded?
    ensures modelType == "TSMixer" ==> EndsWith(filename, ".pt") && !EndsWith(filename, ".joblib")
    ensures modelType != "TSMixer" ==> EndsWith(filename, ".joblib") && !EndsWith(filename, ".pt")
  {
    var parts := SplitExt(filename);
    var n := |filename|;
    assert filename == parts.0 + parts.1;
    assert filename[n - |parts.1|..] == parts.1;
    if modelType == "TSMixer" {
      assert filename[n - 1] == 't';
    } else {
      assert filename[n - 1] == 'b';
    }
  }

  /** A file named just `.pt` or `.joblib` passes the suffix check, but its
      extension splits off empty, so the type check rejects it. */
  lemma BareExtensionRejected(modelType: string, modelKwargs: Option<string>,
                              saved: bool, kwargsParse: bool, load: LoadOutcome)
    ensures UploadModel(".pt", modelType, modelKwargs, saved, kwargsParse, load) == HttpError(400)
    ensures UploadModel(".joblib", modelType, modelKwargs, saved, kwargsParse, load) == HttpError(400)
  {
    assert EndsWith(".pt", ".pt");
    assert SplitExt(".pt").1 == [] by {
      assert LastIndexOf(".pt", '.') == 0;
    }
    assert EndsWith(".joblib", ".joblib");
    assert SplitExt(".joblib").1 == [] by {
      var bare := ".joblib";
      assert bare[0] == '.' && bare[1] == 'j' && bare[2] == 'o' && bare[3] == 'b';
      assert bare[4] == 'l' && bare[5] == 'i' && bare[6] == 'b';
      assert LastIndexOf(bare, '.') == 0;
    }
  }

  /** An upload that is accepted registers the name a later training of
      the same model saves back to the same file. */
  lemma UploadedNameSavesBack(filename: string, modelType: string, modelKwargs: Option<string>,
                              saved: bool, kwargsParse: bool, kind: Registry.ModelKind)
    requires UploadModel(filename, modelType, modelKwargs, saved, kwargsParse, LoadOk).Uploaded?
    requires Registry.KindName(kind) == UploadModel(filename, modelType, modelKwargs, saved, kwargsParse, LoadOk).modelName
    requires kind != Registry.LSTM && modelType != "TSMixer"
    ensures Registry.SavePath(Registry.KindName(kind), kind) == filename
  {
  }

  /** `predict(request)` as written: past the not-found check it calls
      `model_manager.get_model`, which the registry does not define; the
      `AttributeError` is answered by the last `except Exception` with a
      500. The status is 404 or 500, never a prediction. */
  function PredictAsWritten(modelName: string, availableModels: map<string, Registry.ModelKind>): (status: int)
    ensures status == 404 <==> modelName !in availableModels
    ensures status == 404 || status == 500
  {
    if modelName !in availableModels then 404 else 500
  }

  /** Every request the intended not-found check lets through fails with a
      500 as written. */
  lemma PredictAsWrittenNeverServes(modelName: string, availableModels: map<string, Registry.ModelKind>)
    requires PredictStatus(modelName, availableModels).None?
    ensures PredictAsWritten(modelName, availableModels) == 500
  {
  }

  /** The not-found check of `predict(request)`: 404 exactly for a name the
      registry does not hold; `None` lets the request through. */
  function PredictStatus(modelName: string, availableModels: map<string, Registry.ModelKind>): (r: Option<int>)
    ensures r == Some(404) <==> modelName !in availableModels
    ensures r.None? <==> modelName in availableModels
  {
    if modelName !in availableModels then Some(404) else None
  }
}
