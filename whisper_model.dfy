/** Loading the speech model: the device and compute type chosen from the
    settings and the CUDA availability, the loader that keeps its model until
    unloaded, and the process-wide model built at most once. Constructing the
    model is a parameter. */
module WhisperModels {
  import opened Wrappers
  import opened Errors
  import opened Config

  /** The device: "auto" picks CUDA when available and the CPU otherwise; any other setting is used as it is. */
  function SelectDevice(configured: string, cudaAvailable: bool): (device: string)
    ensures configured == "auto" ==> (device == "cuda" <==> cudaAvailable) && (device == "cpu" <==> !cudaAvailable)
    ensures configured != "auto" ==> device == configured
  {
    if configured == "auto" then (if cudaAvailable then "cuda" else "cpu") else configured
  }

  /** The compute type: "auto" picks int8_float16 on CUDA and int8 elsewhere; any other setting is used as it is. */
  function SelectComputeType(configured: string, device: string): (computeType: string)
    ensures configured == "auto" ==> (computeType == "int8_float16" <==> device == "cuda")
    ensures configured == "auto" ==> (computeType == "int8" <==> device != "cuda")
    ensures configured != "auto" ==> computeType == configured
  {
    if configured == "auto" then (if device == "cuda" then "int8_float16" else "int8") else configured
  }

  /** With both settings on "auto", as by default, the half-precision
      quantisation is used exactly when CUDA is available. */
  lemma DefaultChoices(cudaAvailable: bool)
    ensures var s := DefaultSettings();
            var device := SelectDevice(s.whisperDevice, cudaAvailable);
            && (device == "cuda" <==> cudaAvailable)
            && (SelectComputeType(s.whisperComputeType, device) == "int8_float16" <==> cudaAvailable)
            && (SelectComputeType(s.whisperComputeType, device) == "int8" <==> !cudaAvailable)
  {
  }

  /** A constructed model, known by what it was built from. */
  datatype LoadedModel = LoadedModel(size: string, device: string, computeType: string)

  /** Building a model from its size, device and compute type, or the exception it raises. */
  type ModelConstructor = (string, string, string) -> Result<LoadedModel, PyError>

  /** The build a loader attempts for the settings. */
  function Build(s: Settings, cudaAvailable: bool, construct: ModelConstructor): Result<LoadedModel, PyError>
  {
    var device := SelectDevice(s.whisperDevice, cudaAvailable);
    construct(s.whisperModelSize, device, SelectComputeType(s.whisperComputeType, device))
  }

  class WhisperModelLoader {
    const settings: Settings
    var model: Option<LoadedModel>
    /** How many models this loader has tried to build. */
    ghost var builds: nat

    constructor(settings: Settings)
      ensures this.settings == settings && model == None && builds == 0
    {
      this.settings := settings;
      model := None;
      builds := 0;
    }

    /** load: the kept model when there is one, with no new build; otherwise
        one build, kept on success and re-raised on failure. */
    method Load(cudaAvailable: bool, construct: ModelConstructor) returns (r: Result<LoadedModel, PyError>)
      modifies this
      ensures old(model).Some? ==> r == Success(old(model).value) && model == old(model) && builds == old(builds)
      ensures old(model).None? ==>
                && r == Build(settings, cudaAvailable, construct) && builds == old(builds) + 1
                && model == (if r.Success? then Some(r.value) else None)
    {
      if model.Some? {
        return Success(model.value);
      }
      var device := SelectDevice(settings.whisperDevice, cudaAvailable);
      var computeType := SelectComputeType(settings.whisperComputeType, device);
      builds := builds + 1;
      r := construct(settings.whisperModelSize, device, computeType);
      if r.Success? {
        model := Some(r.value);
      }
    }

    /** unload: drops the model; without one it does nothing. */
    method Unload()
      modifies this
      ensures model == None && builds == old(builds)
    {
      if model.Some? {
        model := None;
      }
    }
  }

  /** The module's `_whisper_model` global. */
  class ModelCache {
    var model: Option<LoadedModel>
    /** How many models have been built for the cache. */
    ghost var builds: nat

    constructor()
      ensures model == None && builds == 0
    {
      model := None;
      builds := 0;
    }

    /** get_whisper_model: the cached model, or one built by a fresh loader and cached. */
    method GetWhisperModel(settings: Settings, cudaAvailable: bool, construct: ModelConstructor)
      returns (r: Result<LoadedModel, PyError>)
      modifies this
      ensures old(model).Some? ==> r == Success(old(model).value) && model == old(model) && builds == old(builds)
      ensures old(model).None? ==>
                && r == Build(settings, cudaAvailable, construct) && builds == old(builds) + 1
                && model == (if r.Success? then Some(r.value) else None)
    {
      if model.Some? {
        return Success(model.value);
      }
      var loader := new WhisperModelLoader(settings);
      r := loader.Load(cudaAvailable, construct);
      builds := builds + 1;
      if r.Success? {
        model := Some(r.value);
      }
    }

    /** preload_whisper_model: get_whisper_model with the model discarded. */
    method Preload(settings: Settings, cudaAvailable: bool, construct: ModelConstructor) returns (err: Option<PyError>)
      modifies this
      ensures old(model).Some? ==> err.None? && model == old(model) && builds == old(builds)
      ensures old(model).None? ==>
                var built := Build(settings, cudaAvailable, construct);
                && builds == old(builds) + 1
                && (built.Success? ==> err.None? && model == Some(built.value))
                && (built.Failure? ==> err == Some(built.error) && model.None?)
    {
      var r := GetWhisperModel(settings, cudaAvailable, construct);
      err := if r.Failure? then Some(r.error) else None;
    }
  }

  /** Two calls in a row build at most once, and the second returns what the first cached. */
  method GetTwice(cache: ModelCache, settings: Settings, cudaAvailable: bool, construct: ModelConstructor)
    returns (first: Result<LoadedModel, PyError>, second: Result<LoadedModel, PyError>)
    modifies cache
    ensures cache.builds <= old(cache.builds) + 2
    ensures first.Success? ==> second == first && cache.builds <= old(cache.builds) + 1
  {
    first := cache.GetWhisperModel(settings, cudaAvailable, construct);
    second := cache.GetWhisperModel(settings, cudaAvailable, construct);
  }
}
