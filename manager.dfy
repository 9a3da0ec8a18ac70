/**
 * `ModelManager` (spksim/manager.py): turns a registry name into the model construction,
 * resolving the weights file locally or through the hub download cache.
 */
module Manager {
  import opened Wrappers
  import opened Strings
  import opened Config
  import opened Core
  import PosixPath

  datatype LoadError =
    | UnknownModel(name: string)           // ValueError: the name is not in the registry
    | MissingKey(key: string)              // KeyError on the entry's dictionary
    | LocalModelNotFound(path: string)     // FileNotFoundError for a local weights file
    | UnknownClass(className: string)      // the entry's class is not a model family of the core module
    | DownloadFailed(message: string)      // `hf_hub_download` raised
    | SessionFailed(message: string)       // the inference session could not be opened on the weights file

  /** What `hf_hub_download` is asked for: the file is cached under this key. */
  datatype DownloadKey = DownloadKey(repoId: string, filename: string, cacheDir: string)

  /** `Path.home() / ".cache" / "spksim"`. */
  function DefaultCacheDir(home: string): (r: string)
    ensures r == (if home == [] || home[|home| - 1] == '/' then home else home + "/") + ".cache" + "/" + "spksim"
    ensures PosixPath.IsAbs(r) <==> PosixPath.IsAbs(home)
    ensures PosixPath.Basename(r) == "spksim"
  {
    var cache := PosixPath.Join(home, ".cache");
    var r := PosixPath.Join(cache, "spksim");
    PosixPath.BasenameOfJoin(cache, "spksim");
    CacheNameIsBasename();
    CacheDirLayout(home);
    r
  }

  /** The cache directory's own name holds no `/`, so it is its own basename. */
  lemma CacheNameIsBasename()
    ensures PosixPath.Basename("spksim") == "spksim"
  {
    assert forall i :: 0 <= i < |"spksim"| ==> "spksim"[i] != '/';
    PosixPath.BasenameNoSlash("spksim");
  }

  /** How the two joins of the default cache directory lay out the path. */
  lemma CacheDirLayout(home: string)
    ensures PosixPath.Join(PosixPath.Join(home, ".cache"), "spksim") ==
      (if home == [] || home[|home| - 1] == '/' then home else home + "/") + ".cache" + "/" + "spksim"
  {
    var cache := (if home == [] || home[|home| - 1] == '/' then home else home + "/") + ".cache";
    assert PosixPath.Join(home, ".cache") == cache;
    assert cache[|cache| - 1] == 'e';
  }

  /** An entry is read as local exactly when its "source" is the string "local". */
  predicate IsLocal(c: ModelConfig) {
    c.source == Some("local")
  }

  /** The feature-extractor location WavLM is given: the local path when truthy, else the repository. */
  function FeatureExtractorLocation(c: ModelConfig): (r: Option<string>)
    ensures Truthy(c.featureExtractorPath) ==> r == c.featureExtractorPath
    ensures !Truthy(c.featureExtractorPath) ==> r == c.featureExtractorRepo
  {
    Or(c.featureExtractorPath, c.featureExtractorRepo)
  }

  class ModelManager {
    const cacheDir: string

    /** A missing cache directory defaults to the per-user cache; creating it is not modelled. */
    constructor (cacheDir: Option<string>, home: string)
      ensures cacheDir.None? ==> this.cacheDir == DefaultCacheDir(home)
      ensures cacheDir.Some? ==> this.cacheDir == cacheDir.value
    {
      this.cacheDir := if cacheDir.None? then DefaultCacheDir(home) else cacheDir.value;
    }

    /** The hub download `get_model` asks for, if it reaches one. */
    function DownloadRequest(name: string): (d: Option<DownloadKey>)
      ensures name !in MODEL_CONFIGS ==> d == None
      ensures name in MODEL_CONFIGS && IsLocal(MODEL_CONFIGS[name]) ==> d == None
      ensures d.Some? <==>
        name in MODEL_CONFIGS && !IsLocal(MODEL_CONFIGS[name])
        && MODEL_CONFIGS[name].repoId.Some? && MODEL_CONFIGS[name].onnxFilename.Some?
      ensures d.Some? ==>
        d.value == DownloadKey(MODEL_CONFIGS[name].repoId.value, MODEL_CONFIGS[name].onnxFilename.value, cacheDir)
    {
      if name !in MODEL_CONFIGS then None
      else
        var config := MODEL_CONFIGS[name];
        if IsLocal(config) || config.repoId.None? || config.onnxFilename.None? then None
        else Some(DownloadKey(config.repoId.value, config.onnxFilename.value, cacheDir))
    }

    /**
     * `get_model` up to the constructor call: which class is built, with which arguments.
     * `existing` is the set of paths that exist; `download` is what the hub download does
     * for a key: the cached path, or the message it raised with.
     */
    function Resolve(name: string, existing: set<string>, download: DownloadKey -> Result<string, string>):
      (r: Result<Construction, LoadError>)
      ensures name !in MODEL_CONFIGS <==> r == Failure(UnknownModel(name))
      ensures r.Success? ==> ClassNamed(MODEL_CONFIGS[name].className) == Some(r.value.Family())
      ensures r.Success? && IsLocal(MODEL_CONFIGS[name]) ==>
        MODEL_CONFIGS[name].path == Some(r.value.modelPath) && r.value.modelPath in existing
      ensures name in MODEL_CONFIGS && IsLocal(MODEL_CONFIGS[name]) ==>
        match MODEL_CONFIGS[name].path
        case None => r == Failure(MissingKey("path"))
        case Some(p) => p !in existing ==> r == Failure(LocalModelNotFound(p))
      ensures r.Success? && !IsLocal(MODEL_CONFIGS[name]) ==>
        DownloadRequest(name).Some? && download(DownloadRequest(name).value) == Success(r.value.modelPath)
      ensures DownloadRequest(name).Some? && download(DownloadRequest(name).value).Failure? ==>
        r == Failure(DownloadFailed(download(DownloadRequest(name).value).error))
      ensures r.Success? && r.value.NewWavLM? ==>
        r.value.featureExtractorRepo == FeatureExtractorLocation(MODEL_CONFIGS[name])
    {
      if name !in MODEL_CONFIGS then Failure(UnknownModel(name))
      else
        var config := MODEL_CONFIGS[name];
        var weights :=
          if IsLocal(config) then
            if config.path.None? then Failure(MissingKey("path"))
            else if config.path.value !in existing then Failure(LocalModelNotFound(config.path.value))
            else Success(config.path.value)
          else if config.repoId.None? then Failure(MissingKey("repo_id"))
          else if config.onnxFilename.None? then Failure(MissingKey("onnx_filename"))
          else
            match download(DownloadKey(config.repoId.value, config.onnxFilename.value, cacheDir))
            case Failure(message) => Failure(DownloadFailed(message))
            case Success(path) => Success(path);
        if weights.Failure? then Failure(weights.error)
        else
          match ClassNamed(config.className)
          case None => Failure(UnknownClass(config.className))
          case Some(WavLM) => Success(NewWavLM(weights.value, FeatureExtractorLocation(config)))
          case Some(Resemblyzer) => Success(NewResemblyzer(weights.value))
          case Some(WeSpeaker) => Success(NewWeSpeaker(weights.value))
    }

    /**
     * `get_model`: resolves the name, opens the inference session on the weights file with
     * `open`, which may fail, and builds the model on it.
     */
    method GetModel(name: string, existing: set<string>, download: DownloadKey -> Result<string, string>,
                    open: string -> Result<Session, string>)
      returns (r: Result<SpeakerSimilarityModel, LoadError>)
      ensures r.Failure? <==>
        Resolve(name, existing, download).Failure? || open(Resolve(name, existing, download).value.modelPath).Failure?
      ensures Resolve(name, existing, download).Failure? ==> r.error == Resolve(name, existing, download).error
      ensures Resolve(name, existing, download).Success? ==>
        var loaded := open(Resolve(name, existing, download).value.modelPath);
        loaded.Failure? ==> r.error == SessionFailed(loaded.error)
      ensures r.Success? ==> fresh(r.value)
      ensures r.Success? ==>
        var c := Resolve(name, existing, download).value;
        && r.value.family == c.Family()
        && r.value.session == open(c.modelPath).value
        && r.value.inputNames == open(c.modelPath).value.inputs
        && r.value.outputNames == open(c.modelPath).value.outputs
        && r.value.featureExtractorRepo == (if c.NewWavLM? then c.featureExtractorRepo else None)
    {
      var resolved := Resolve(name, existing, download);
      if resolved.Failure? {
        return Failure(resolved.error);
      }
      var loaded := open(resolved.value.modelPath);
      if loaded.Failure? {
        return Failure(SessionFailed(loaded.error));
      }
      var model := new SpeakerSimilarityModel(resolved.value, loaded.value);
      return Success(model);
    }
  }

  /**
   * A well-formed entry is downloaded from the hub under its repository id, file name and the
   * manager's cache directory, and it resolves exactly when that download succeeds; the
   * constructed family is the entry's class, and a WavLM model gets the entry's
   * feature-extractor repository.
   */
  lemma WellFormedLoads(m: ModelManager, name: string, existing: set<string>, download: DownloadKey -> Result<string, string>)
    requires name in MODEL_CONFIGS && WellFormedEntry(MODEL_CONFIGS[name])
    ensures m.DownloadRequest(name) ==
      Some(DownloadKey(MODEL_CONFIGS[name].repoId.value, MODEL_CONFIGS[name].onnxFilename.value, m.cacheDir))
    ensures m.Resolve(name, existing, download).Success? <==> download(m.DownloadRequest(name).value).Success?
    ensures m.Resolve(name, existing, download).Success? ==>
      var c := m.Resolve(name, existing, download).value;
      && c.modelPath == download(m.DownloadRequest(name).value).value
      && ClassName(c.Family()) == MODEL_CONFIGS[name].className
      && (c.NewWavLM? <==> MODEL_CONFIGS[name].className == "WavLM")
      && (c.NewWavLM? ==> c.featureExtractorRepo == MODEL_CONFIGS[name].featureExtractorRepo)
  {
    var c := MODEL_CONFIGS[name];
    assert !IsLocal(c) && !Truthy(c.featureExtractorPath);
    assert ClassNamed(c.className).Some?;
  }

  /**
   * Every registered name is a hub download under its repository id, file name and the
   * manager's cache directory, and resolves exactly when that download succeeds; the
   * constructed family is the entry's class, and only WavLM gets a feature-extractor
   * location, its repository.
   */
  lemma RegisteredNamesLoad(m: ModelManager, name: string, existing: set<string>, download: DownloadKey -> Result<string, string>)
    requires name in MODEL_CONFIGS
    ensures WellFormedEntry(MODEL_CONFIGS[name])
    ensures m.DownloadRequest(name) ==
      Some(DownloadKey(MODEL_CONFIGS[name].repoId.value, MODEL_CONFIGS[name].onnxFilename.value, m.cacheDir))
    ensures m.Resolve(name, existing, download).Success? <==> download(m.DownloadRequest(name).value).Success?
    ensures m.Resolve(name, existing, download).Success? ==>
      var c := m.Resolve(name, existing, download).value;
      && c.modelPath == download(m.DownloadRequest(name).value).value
      && ClassName(c.Family()) == MODEL_CONFIGS[name].className
      && (c.NewWavLM? <==> name == "wavlm-base-plus-sv")
      && (c.NewWavLM? ==> c.featureExtractorRepo == Some(MY_REPO_ID))
  {
    RegistryWellFormed(name);
    SingleWavLMAndResemblyzer(name);
    WellFormedLoads(m, name, existing, download);
    if name == "wavlm-base-plus-sv" {
      EntriesDistinct();
      LookupEntry(ENTRIES, 0);
    }
  }
}
