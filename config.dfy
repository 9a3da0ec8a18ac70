/** The registry of selectable models (spksim/config.py). */
module Config {
  import opened Wrappers

  /** The personal repository that hosts the WavLM and Resemblyzer exports. */
  const MY_REPO_ID: string := "sgqt2369144677/speaker-similarity-models"

  /**
   * One entry of the registry. Every key but "class" is optional in the source's
   * dictionaries and is read with `get` or with an indexing that may fail, so it is an Option here.
   */
  datatype ModelConfig = ModelConfig(
    source: Option<string>,
    repoId: Option<string>,
    onnxFilename: Option<string>,
    className: string,
    featureExtractorRepo: Option<string>,
    featureExtractorPath: Option<string>,
    path: Option<string>)

  /** A registry entry downloaded from the model hub. */
  function RemoteEntry(repoId: string, onnxFilename: string, className: string): (c: ModelConfig)
    ensures c.source == Some("remote") && c.path == None && c.featureExtractorPath == None
  {
    ModelConfig(Some("remote"), Some(repoId), Some(onnxFilename), className, None, None, None)
  }

  /** The entries of the `MODEL_CONFIGS` dictionary literal, in the order they are written. */
  const ENTRIES: seq<(string, ModelConfig)> := [
    // WavLM series
    ("wavlm-base-plus-sv",
      RemoteEntry(MY_REPO_ID, "wavlm-base-plus-sv.onnx", "WavLM").(featureExtractorRepo := Some(MY_REPO_ID))),
    // Resemblyzer
    ("resemblyzer",
      RemoteEntry(MY_REPO_ID, "resemblyzer_voice_encoder.onnx", "Resemblyzer")),
    // WeSpeaker series: ResNet34
    ("wespeaker-resnet34",
      RemoteEntry("Wespeaker/wespeaker-voxceleb-resnet34", "voxceleb_resnet34.onnx", "WeSpeaker")),
    ("wespeaker-resnet34-lm",
      RemoteEntry("Wespeaker/wespeaker-voxceleb-resnet34-LM", "voxceleb_resnet34_LM.onnx", "WeSpeaker")),
    ("wespeaker-cnceleb-resnet34",
      RemoteEntry("Wespeaker/wespeaker-cnceleb-resnet34", "cnceleb_resnet34.onnx", "WeSpeaker")),
    ("wespeaker-cnceleb-resnet34-lm",
      RemoteEntry("Wespeaker/wespeaker-cnceleb-resnet34-LM", "cnceleb_resnet34_LM.onnx", "WeSpeaker")),
    // CAM++
    ("wespeaker-campplus",
      RemoteEntry("Wespeaker/wespeaker-voxceleb-campplus", "voxceleb_CAM++.onnx", "WeSpeaker")),
    ("wespeaker-campplus-lm",
      RemoteEntry("Wespeaker/wespeaker-voxceleb-campplus-LM", "voxceleb_CAM++_LM.onnx", "WeSpeaker")),
    // ECAPA-TDNN
    ("wespeaker-ecapa-tdnn512",
      RemoteEntry("Wespeaker/wespeaker-voxceleb-ecapa-tdnn512", "voxceleb_ECAPA512.onnx", "WeSpeaker")),
    ("wespeaker-ecapa-tdnn512-lm",
      RemoteEntry("Wespeaker/wespeaker-ecapa-tdnn512-LM", "voxceleb_ECAPA512_LM.onnx", "WeSpeaker")),
    ("wespeaker-ecapa-tdnn1024",
      RemoteEntry("Wespeaker/wespeaker-voxceleb-ecapa-tdnn1024", "voxceleb_ECAPA1024.onnx", "WeSpeaker")),
    ("wespeaker-ecapa-tdnn1024-lm",
      RemoteEntry("Wespeaker/wespeaker-voxceleb-ecapa-tdnn1024-LM", "voxceleb_ECAPA1024_LM.onnx", "WeSpeaker")),
    // Large ResNets and others
    ("wespeaker-resnet152-lm",
      RemoteEntry("Wespeaker/wespeaker-voxceleb-resnet152-LM", "voxceleb_resnet152_LM.onnx", "WeSpeaker")),
    ("wespeaker-resnet221-lm",
      RemoteEntry("Wespeaker/wespeaker-voxceleb-resnet221-LM", "voxceleb_resnet221_LM.onnx", "WeSpeaker")),
    ("wespeaker-resnet293-lm",
      RemoteEntry("Wespeaker/wespeaker-voxceleb-resnet293-LM", "voxceleb_resnet293_LM.onnx", "WeSpeaker")),
    ("wespeaker-dfresnet114-gemini",
      RemoteEntry("Wespeaker/wespeaker-voxceleb-gemini-DFresnet114-LM", "voxceleb_gemini_dfresnet114_LM.onnx", "WeSpeaker"))
  ]

  /**
   * The dictionary a Python `{k: v, ...}` display builds: entries are inserted left to
   * right, so a repeated key keeps the value written last.
   */
  function ToDict<K(==), V>(entries: seq<(K, V)>): (m: map<K, V>)
    ensures |m| <= |entries|
  {
    if entries == [] then map[]
    else
      var last := entries[|entries| - 1];
      ToDict(entries[..|entries| - 1])[last.0 := last.1]
  }

  /** `MODEL_CONFIGS`: model name to its registry entry. */
  const MODEL_CONFIGS: map<string, ModelConfig> := ToDict(ENTRIES)

  /** No key of the list is written twice. */
  predicate DistinctKeys<K(==), V>(entries: seq<(K, V)>) {
    forall i, j :: 0 <= i < j < |entries| ==> entries[i].0 != entries[j].0
  }

  /** Every key of the dictionary comes from an entry that carries its value. */
  lemma {:induction false} EntryOf<K, V>(entries: seq<(K, V)>, k: K) returns (i: nat)
    requires k in ToDict(entries)
    ensures i < |entries| && entries[i] == (k, ToDict(entries)[k])
  {
    var last := entries[|entries| - 1];
    if k == last.0 {
      i := |entries| - 1;
    } else {
      i := EntryOf(entries[..|entries| - 1], k);
    }
  }

  /** With distinct keys, every entry is present in the dictionary with its own value. */
  lemma {:induction false} LookupEntry<K, V>(entries: seq<(K, V)>, i: nat)
    requires DistinctKeys(entries) && i < |entries|
    ensures entries[i].0 in ToDict(entries) && ToDict(entries)[entries[i].0] == entries[i].1
  {
    var n := |entries| - 1;
    if i < n {
      assert DistinctKeys(entries[..n]);
      LookupEntry(entries[..n], i);
    }
  }

  /** A key written in no entry is not in the dictionary. */
  lemma {:induction false} AbsentKey<K, V>(entries: seq<(K, V)>, k: K)
    requires forall i :: 0 <= i < |entries| ==> entries[i].0 != k
    ensures k !in ToDict(entries)
  {
    if entries != [] {
      var n := |entries| - 1;
      AbsentKey(entries[..n], k);
    }
  }

  /** With distinct keys the dictionary has one key per entry. */
  lemma {:induction false} DictSize<K, V>(entries: seq<(K, V)>)
    requires DistinctKeys(entries)
    ensures |ToDict(entries)| == |entries|
  {
    if entries != [] {
      var n := |entries| - 1;
      assert DistinctKeys(entries[..n]);
      DictSize(entries[..n]);
      AbsentKey(entries[..n], entries[n].0);
    }
  }

  /** The names of the three model families the core module defines. */
  const FAMILY_CLASSES: set<string> := {"WavLM", "Resemblyzer", "WeSpeaker"}

  predicate EndsWith(s: string, suffix: string) {
    |suffix| <= |s| && forall i :: 0 <= i < |suffix| ==> s[|s| - |suffix| + i] == suffix[i]
  }

  predicate StartsWith(s: string, prefix: string) {
    |prefix| <= |s| && forall i :: 0 <= i < |prefix| ==> s[i] == prefix[i]
  }

  /** A hub download: a non-empty repository id and a `.onnx` file, no local path. */
  predicate IsRemote(c: ModelConfig) {
    && c.source == Some("remote")
    && c.path == None && c.featureExtractorPath == None
    && c.repoId.Some? && c.repoId.value != ""
    && c.onnxFilename.Some? && EndsWith(c.onnxFilename.value, ".onnx")
  }

  /** The repository conventions: personal repository for WavLM and Resemblyzer, `Wespeaker/` otherwise. */
  predicate RepositoryByFamily(c: ModelConfig) {
    && (c.className in {"WavLM", "Resemblyzer"} ==> c.repoId == Some(MY_REPO_ID))
    && (c.className == "WeSpeaker" ==> c.repoId.Some? && StartsWith(c.repoId.value, "Wespeaker/"))
  }

  /** The well-formedness every written entry has. */
  predicate WellFormedEntry(c: ModelConfig) {
    && c.className in FAMILY_CLASSES
    && IsRemote(c)
    && (c.featureExtractorRepo.Some? <==> c.className == "WavLM")
    && RepositoryByFamily(c)
  }

  lemma EntryFamilies(i: nat)
    requires i < |ENTRIES|
    ensures ENTRIES[i].1.className in FAMILY_CLASSES
    ensures ENTRIES[i].1.className == "WavLM" <==> i == 0
    ensures ENTRIES[i].1.className == "Resemblyzer" <==> i == 1
    ensures ENTRIES[i].1.featureExtractorRepo.Some? <==> i == 0
  {
  }

  // The per-entry checks are split into small index ranges to keep each proof cheap.

  lemma EntryOnnxFileA(i: nat)
    requires i < 4
    ensures ENTRIES[i].1.onnxFilename.Some? && EndsWith(ENTRIES[i].1.onnxFilename.value, ".onnx")
  {
  }

  lemma EntryOnnxFileB(i: nat)
    requires 4 <= i < 8
    ensures ENTRIES[i].1.onnxFilename.Some? && EndsWith(ENTRIES[i].1.onnxFilename.value, ".onnx")
  {
  }

  lemma EntryOnnxFileC(i: nat)
    requires 8 <= i < 12
    ensures ENTRIES[i].1.onnxFilename.Some? && EndsWith(ENTRIES[i].1.onnxFilename.value, ".onnx")
  {
  }

  lemma EntryOnnxFileD(i: nat)
    requires 12 <= i < 16
    ensures ENTRIES[i].1.onnxFilename.Some? && EndsWith(ENTRIES[i].1.onnxFilename.value, ".onnx")
  {
  }

  /** Every entry is a hub download of a `.onnx` file from a non-empty repository. */
  lemma EntryRemote(i: nat)
    requires i < |ENTRIES|
    ensures IsRemote(ENTRIES[i].1)
  {
    if i < 4 {
      EntryOnnxFileA(i);
    } else if i < 8 {
      EntryOnnxFileB(i);
    } else if i < 12 {
      EntryOnnxFileC(i);
    } else {
      EntryOnnxFileD(i);
    }
  }

  lemma EntryWespeakerRepositoryA(i: nat)
    requires 2 <= i < 9
    ensures ENTRIES[i].1.repoId.Some? && StartsWith(ENTRIES[i].1.repoId.value, "Wespeaker/")
  {
  }

  lemma EntryWespeakerRepositoryB(i: nat)
    requires 9 <= i < 16
    ensures ENTRIES[i].1.repoId.Some? && StartsWith(ENTRIES[i].1.repoId.value, "Wespeaker/")
  {
  }

  /** Every WeSpeaker entry is hosted under `Wespeaker/`. */
  lemma EntryWespeakerRepository(i: nat)
    requires 2 <= i < |ENTRIES|
    ensures ENTRIES[i].1.repoId.Some? && StartsWith(ENTRIES[i].1.repoId.value, "Wespeaker/")
  {
    if i < 9 {
      EntryWespeakerRepositoryA(i);
    } else {
      EntryWespeakerRepositoryB(i);
    }
  }

  lemma EntryRepository(i: nat)
    requires i < |ENTRIES|
    ensures RepositoryByFamily(ENTRIES[i].1)
  {
    EntryFamilies(i);
    if i >= 2 {
      EntryWespeakerRepository(i);
    }
  }

  lemma EntriesWellFormed(i: nat)
    requires i < |ENTRIES|
    ensures WellFormedEntry(ENTRIES[i].1)
    ensures ENTRIES[i].1.className == "WavLM" <==> i == 0
    ensures ENTRIES[i].1.className == "Resemblyzer" <==> i == 1
  {
    EntryFamilies(i);
    EntryRemote(i);
    EntryRepository(i);
  }

  lemma EntriesDistinct()
    ensures DistinctKeys(ENTRIES)
  {
  }

  /**
   * Every registered model is a hub download of one of the three families: a non-empty
   * repository id and a `.onnx` file, no local path; only the WavLM entry has a
   * feature-extractor repository; WavLM and Resemblyzer use the personal repository and
   * every WeSpeaker model a `Wespeaker/` repository.
   */
  lemma RegistryWellFormed(name: string)
    requires name in MODEL_CONFIGS
    ensures WellFormedEntry(MODEL_CONFIGS[name])
  {
    var i := EntryOf(ENTRIES, name);
    EntriesWellFormed(i);
  }

  /** Exactly one entry is a WavLM model and exactly one a Resemblyzer model. */
  lemma SingleWavLMAndResemblyzer(name: string)
    requires name in MODEL_CONFIGS
    ensures MODEL_CONFIGS[name].className == "WavLM" <==> name == "wavlm-base-plus-sv"
    ensures MODEL_CONFIGS[name].className == "Resemblyzer" <==> name == "resemblyzer"
  {
    var i := EntryOf(ENTRIES, name);
    EntriesWellFormed(i);
    EntriesDistinct();
    assert i != 0 ==> ENTRIES[0].0 != ENTRIES[i].0;
    assert i != 1 ==> ENTRIES[1].0 != ENTRIES[i].0;
  }

  /** The WeSpeaker models are all the registered models but the WavLM and the Resemblyzer one. */
  lemma WeSpeakerNames()
    ensures (set name | name in MODEL_CONFIGS && MODEL_CONFIGS[name].className == "WeSpeaker")
      == MODEL_CONFIGS.Keys - {"wavlm-base-plus-sv", "resemblyzer"}
  {
    forall name | name in MODEL_CONFIGS
      ensures MODEL_CONFIGS[name].className == "WeSpeaker" <==> name !in {"wavlm-base-plus-sv", "resemblyzer"}
    {
      RegistryWellFormed(name);
      SingleWavLMAndResemblyzer(name);
    }
  }

  /** The table registers sixteen names. */
  lemma RegistryCount()
    ensures |MODEL_CONFIGS| == 16
  {
    EntriesDistinct();
    DictSize(ENTRIES);
  }

  /** The WavLM and the Resemblyzer model are registered under their own names. */
  lemma OthersRegistered()
    ensures "wavlm-base-plus-sv" in MODEL_CONFIGS && "resemblyzer" in MODEL_CONFIGS
  {
    EntriesDistinct();
    LookupEntry(ENTRIES, 0);
    LookupEntry(ENTRIES, 1);
  }

  /** Sixteen distinct names, fourteen of them WeSpeaker models. */
  lemma RegistrySize()
    ensures |MODEL_CONFIGS| == 16
    ensures |set name | name in MODEL_CONFIGS && MODEL_CONFIGS[name].className == "WeSpeaker"| == 14
  {
    RegistryCount();
    OthersRegistered();
    WeSpeakerNames();
    var others := {"wavlm-base-plus-sv", "resemblyzer"};
    assert |MODEL_CONFIGS.Keys - others| == |MODEL_CONFIGS.Keys| - |others|;
  }
}
