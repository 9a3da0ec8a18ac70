# spksim in Dafny

spksim scores how similar two speakers sound. It takes a pairs file of
`candidate|reference` audio paths, runs one of sixteen registered ONNX speaker-embedding
models on both files and writes the similarities as CSV. This project models its
sequential logic and proves properties about it:

- **The model registry** (`Config`). The `MODEL_CONFIGS` table is a literal list of
  entries folded into a map, with later keys winning as in a Python dict display. Lemmas
  show that the table holds sixteen distinct names. Every entry is a hub download of one
  of the three families. Only WavLM carries a feature-extractor repository, and the
  repository ids follow the per-family conventions.
- **Model resolution** (`Manager`). `ModelManager` is a class whose constructor defaults
  the cache directory. `Resolve` is the branching of `get_model` up to the constructor
  call. It covers these cases:
  - an unknown name;
  - a local weights file that must exist;
  - a hub download keyed by repository, file name and cache directory;
  - dispatch on the closed family tag, where only WavLM receives a feature-extractor
    location.

  A failed hub download is reported with its message. `GetModel` then opens the
  inference session on the weights file, reports a session that fails to open, and
  builds the model object.
- **Input binding** (`Core`). `SpeakerSimilarityModel` is a class whose constant fields
  hold its family and the loaded session's input and output names. Each family's binding
  applies only to a model of that family. WavLM's binding is a loop that keeps exactly the
  declared inputs the extractor produced and converts the attention mask to int64. The
  other two families bind one tensor with a batch axis to the first input. `Infer`
  returns the first output.
- **The batch driver** (`Cli`). The loop of `main` is `ScorePairs`. It delegates the
  per-line body to `ScoreLine`, the `try` block to `ScorePair` and the existence checks
  and scoring to `ScoreResolved`. It is proved against `ProcessLine`, a function giving
  each line's outcome: ignored, skipped with a warning, or scored. That function uses
  `Strip`, the first-`|` split, `ResolvePath` and the existence checks. The records are
  the scored outcomes in line order. The tail renders the CSV file. Like the source, it
  writes every field unquoted. When no field holds a comma or a newline, the file reads
  back into its rows and fields. A comma in a field breaks its row, and a newline in a
  field breaks the file's lines.

`Strings` and `PosixPath` model the Python string methods and the POSIX `os.path`
functions that the driver calls.

The outside world comes in as parameters:
- the set of existing paths;
- the hub download, a function from download key to the cached path or the message it
  failed with;
- the session loader, a function from weights path to the session (the graph's input and
  output names) or the message it failed with;
- the engine's `run`;
- the scoring step for one pair, which may fail with a message;
- the score formatter.

Scores are values of an opaque type `S`.

## Model

| member | source | states |
|---|---|---|
| Strings.Strip | spksim/cli.py:54 | the result has no whitespace at either end, and is empty exactly when the line is all whitespace |
| Strings.StripExact | spksim/cli.py:54 | stripping whitespace from around a text with non-space ends gives back exactly that text |
| Strings.SplitFirst | spksim/cli.py:60 | the line is the left part, the separator, then the right part, and the left part holds no separator |
| Strings.SplitFirstExact | spksim/cli.py:60 | the first separator splits `left + sep + right` back into `left` and `right` when `left` holds no separator |
| Strings.SplitJoin | spksim/cli.py:106-108 | splitting what was joined gives back the parts, provided no part holds the separator |
| Strings.JoinSplit | spksim/cli.py:106-108 | joining what was split gives back the text, the inverse direction of `SplitJoin` |
| Strings.Or | spksim/manager.py:52 | `a or b` on optional strings: `a` when it is a non-empty string, otherwise `b` |
| PosixPath.Join | spksim/cli.py:67 | an absolute second part replaces the first; otherwise the result starts with the first part and ends with the second; it is absolute iff either part is |
| PosixPath.Basename | spksim/cli.py:83 | the result holds no `/`, is a suffix of the path and is preceded by `/` whenever it is shorter than the path |
| PosixPath.BasenameOfJoin | spksim/cli.py:83 | joining a directory in front of a path never changes its basename |
| Config.ToDict | spksim/config.py:6-123 | the dict holds no more keys than the display has entries |
| Config.EntryOf | spksim/config.py:6-123 | every key of the dict comes from an entry that carries the value it maps to |
| Config.AbsentKey | spksim/config.py:6-123 | a key written in no entry is not in the dict |
| Config.LookupEntry | spksim/config.py:6-123 | with distinct keys, every entry's key maps to that entry's value |
| Config.DictSize | spksim/config.py:6-123 | with distinct keys, the dict has one key per entry |
| Config.EntriesWellFormed | spksim/config.py:10-122 | every written entry is well formed; the first is the only WavLM entry and the second the only Resemblyzer entry |
| Config.RegistryWellFormed | spksim/config.py:10-122 | every registered model is a remote entry with a non-empty repository id and a `.onnx` file, and its class is WavLM, Resemblyzer or WeSpeaker; only WavLM has a feature-extractor repository; WavLM and Resemblyzer use `MY_REPO_ID`, and every WeSpeaker entry uses a `Wespeaker/` repository |
| Config.SingleWavLMAndResemblyzer | spksim/config.py:10-26 | exactly one name is a WavLM model and exactly one a Resemblyzer model |
| Config.EntryRemote | spksim/config.py:10-122 | every written entry is a remote entry with a non-empty repository id and a `.onnx` file |
| Config.EntryWespeakerRepository | spksim/config.py:33-121 | every entry after the first two has a repository id starting with `Wespeaker/` |
| Config.WeSpeakerNames | spksim/config.py:6-123 | the WeSpeaker models are all the registered models except `wavlm-base-plus-sv` and `resemblyzer` |
| Config.RegistrySize | spksim/config.py:6-123 | the table holds 16 names, and 14 of them are WeSpeaker models |
| Core.ClassNamed | spksim/manager.py:46 | a family is found exactly for the three family class names, and the found family is the one defined under that name |
| Core.ClassNamedRoundTrip | spksim/manager.py:46 | every family is found under its own class name |
| Core.AsType | spksim/core.py:60 | the element type becomes the requested one; shape and elements are kept |
| Core.WavLMBound | spksim/core.py:59-62 | the attention mask becomes int64 with its shape and elements kept; every other array passes through unchanged |
| Core.ExpandBatch | spksim/core.py:70 | a leading batch axis of size 1 is added; element type and elements are kept |
| Core.SpeakerSimilarityModel.constructor | spksim/core.py:16-19 | the model keeps the session opened on the weights file; its input and output names are that session's; only WavLM keeps a feature-extractor location |
| Core.SpeakerSimilarityModel.WavLMExtractFeatures | spksim/core.py:53-64 | for a WavLM model: the keys are exactly the declared inputs the extractor produced; each value is the produced array, converted to int64 for the attention mask; every key is accepted by the graph |
| Core.SpeakerSimilarityModel.WeSpeakerExtractFeatures | spksim/core.py:67-72 | for a WeSpeaker model: the result is defined iff the graph has an input; its only key is the first input name, holding the features with a batch axis |
| Core.SpeakerSimilarityModel.ResemblyzerExtractFeatures | spksim/core.py:92-94 | for a Resemblyzer model: the result is defined iff the graph has an input; its only key is the first input name, holding the float32 frames with a batch axis |
| Core.SpeakerSimilarityModel.Infer | spksim/core.py:25-27 | succeeds iff the run succeeds with at least one output, and then returns the first output; a failed run is reported with its message |
| Manager.DefaultCacheDir | spksim/manager.py:12-13 | the home directory, a `/` unless it already ends in one or is empty, then `.cache/spksim`; so it is named `spksim` and is absolute iff the home directory is |
| Manager.FeatureExtractorLocation | spksim/manager.py:52 | the local extractor path when it is a non-empty string, else the extractor repository |
| Manager.ModelManager.constructor | spksim/manager.py:11-14 | a missing cache directory becomes the default; a given one is kept |
| Manager.ModelManager.DownloadRequest | spksim/manager.py:21-42 | a download happens exactly for a registered, non-local entry with a repository id and a file name, and it is keyed by those two and the manager's cache directory |
| Manager.ModelManager.Resolve | spksim/manager.py:17-61 | unknown name iff not registered; the built family is the one named by the entry's class; a local model uses the entry's path, which must exist; a remote model uses the path the download returns, and a failed download is reported with its message; WavLM's extractor location is the path-or-repository fallback |
| Manager.ModelManager.GetModel | spksim/manager.py:17-61 | fails exactly when resolution fails, with the same error, or when the session cannot be opened on the resolved weights file, with its message; otherwise returns a new model of the resolved family whose session, input names and output names are those of the opened session |
| Manager.WellFormedLoads | spksim/manager.py:21-61 | a well-formed entry is a download under its repository id, file name and the cache directory, and resolves exactly when that download succeeds, to the downloaded path and the family its class names; a WavLM model gets the entry's extractor repository |
| Manager.RegisteredNamesLoad | spksim/manager.py:21-61 | every registered name is a download under its repository, file name and the cache directory, and resolves exactly when that download succeeds, to its entry's class; only `wavlm-base-plus-sv` builds a WavLM model, with `MY_REPO_ID` as its extractor location |
| Cli.ResolvePath | spksim/cli.py:65-68 | the path is returned unchanged without a non-empty base directory or when absolute; otherwise the result starts with the base directory; it always ends with the path and keeps its basename |
| Cli.PairFields | spksim/cli.py:60-62 | both fields are stripped, and the left field holds no separator |
| Cli.FirstBarSplit | spksim/cli.py:60-62 | the split is at the first separator: the right field keeps any later separator |
| Cli.ResolvedOutcome | spksim/cli.py:74-94 | a resolved pair is never ignored, and it scores iff both files exist and scoring succeeds |
| Cli.PairOutcome | spksim/cli.py:58-94 | a pair line is never ignored: it is either skipped with a warning or scored |
| Cli.IgnoredLines | spksim/cli.py:54-56 | a line is ignored exactly when it is blank after stripping or holds no separator |
| Cli.PairLineOutcome | spksim/cli.py:70-94 | a missing candidate is reported first, then a missing reference; a record is made iff both exist and scoring succeeds, and it names the candidate's and the reference's basenames; a scoring failure is reported with the stripped line |
| Cli.Outcomes | spksim/cli.py:53-94 | one outcome per line, each the outcome of that line on its own |
| Cli.ScoredLines | spksim/cli.py:53-91 | each record comes from its own line, which scored to exactly that record; the lines are in increasing order, and every line that scored has a record |
| Cli.AtMostOnePerLine | spksim/cli.py:53-94 | records and warnings together never outnumber the lines |
| Cli.LinesIndependent | spksim/cli.py:93-94 | the records and warnings of a file are those of its first part followed by those of the rest, so a failing line changes nothing after it |
| Cli.PrefixStep | spksim/cli.py:53-91 | one more line adds its own record or warning after those of the lines before it |
| Cli.ScoreResolved | spksim/cli.py:74-91 | the existence checks and the scoring add exactly the record and the warning of the resolved pair's outcome |
| Cli.ScorePair | spksim/cli.py:58-94 | the `try` block for a pair line adds exactly the record and the warning of that line's outcome |
| Cli.ScoreLine | spksim/cli.py:54-94 | one iteration of the loop adds exactly the record and the warning of that line's outcome |
| Cli.ScorePairs | spksim/cli.py:53-94 | the records are those of the lines' outcomes in line order, as are the warnings, and there are no more of them than lines |
| Cli.CsvLines | spksim/cli.py:106-108 | the header, then one row per record in record order |
| Cli.Row | spksim/cli.py:108 | a row is the comma-join of candidate, reference and formatted score, unquoted, and holds a newline exactly when one of its fields does |
| Cli.CsvText | spksim/cli.py:106-108 | the file text is the newline-join of its lines with an empty last piece, so it ends in a newline |
| Cli.CsvTextStep | spksim/cli.py:107-108 | writing one more record appends its row and a newline to the text written so far |
| Cli.RenderCsv | spksim/cli.py:106-108 | the text written is the header line and one row line per record, each ending in a newline |
| Cli.RowReadsBack | spksim/cli.py:108 | a row of fields without commas or newlines splits back into its three fields |
| Cli.CsvReadsBack | spksim/cli.py:106-108 | provided no field holds a comma or a newline, the file splits on newlines into the header and one row per record, and each row splits on commas into that record's fields |
| Cli.CommaInFieldBreaksRow | spksim/cli.py:108 | a comma in any field makes the row split into something other than its three fields |
| Cli.NewlineInFieldBreaksFile | spksim/cli.py:106-108 | a newline in any field of any record makes the file split into something other than its lines |
| Cli.SaveResults | spksim/cli.py:97-108 | a file is written iff there are records and an output path, and it holds the CSV of the records |
| Cli.RunBatch | spksim/cli.py:53-108 | the records and warnings are those of the lines' outcomes, and the file is written as above |

## Left out

- Audio loading and resampling, the Kaldi filter bank and the mel spectrogram
  (spksim/utils.py and spksim/core.py:74-91) are floating-point signal processing in
  foreign libraries. Their results are opaque tensor parameters.
- Core.SpeakerSimilarityModel.ResemblyzerExtractFeatures: the transpose of the mel
  spectrogram is part of its input, not modelled.
- ONNX session creation and execution, and the Wav2Vec2 feature extractor, are foreign
  calls. Opening the session is a parameter that yields the input and output names or a
  failure message, and `run` is a parameter.
- Core.AsType: the conversion of element values between types is not modelled. The
  elements are kept and only the element type changes.
- `compute_similarity`, the average score and its printing, and the `:.6f` formatting
  are floating-point numerics. The score is an opaque `S`, and formatting is a
  parameter.
- The scoring of one pair is one opaque step: feature extraction and inference for both
  files, then the similarity. The step yields a score or an error message, standing for
  any exception it raises.
- `hf_hub_download` and the cache directory's `mkdir` are network and filesystem I/O.
  The download is a parameter from the download key to a path or a failure message.
  Whether a download fails is not known to the model, so a registered name is shown to
  resolve exactly when its download succeeds.
- Manager.ModelManager.constructor: `Path(cache_dir)` normalisation is not modelled. The
  given string is kept as is.
- Manager.ModelManager.Resolve: exception types are abstracted into `LoadError`. Any
  class name other than the three families becomes `UnknownClass`, which also covers
  `getattr` finding a non-family name.
- Manager.ModelManager.GetModel: a failure of WavLM's feature-extractor loader, which
  runs in the constructor after the session opened, is not modelled. The model is built
  whenever the session opens.
- Cli.CsvReadsBack: read-back is promised only for fields without commas or newlines.
  The source writes the fields unquoted, and a file name holding either character breaks
  the CSV layout; Cli.CommaInFieldBreaksRow and Cli.NewlineInFieldBreaksFile state this.
- Reading the pairs file and splitting it into lines, argparse, tqdm and all printing
  are left out. The lines are a parameter. Warnings are collected as `Diagnostic`
  values instead of printed. argparse's `choices` already restricts the model name to
  the registry's keys.
- Writing the output file is modelled as a returned path and text.
- save_extractor.py and setup.py hold no logic of the core and are not part of this
  model.
