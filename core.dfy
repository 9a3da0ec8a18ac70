/**
 * The model abstraction (spksim/core.py): a loaded inference graph, the binding of
 * extracted features to the graph's declared inputs, and the selection of its first output.
 * Audio loading, the feature extractors' signal processing, the inference engine and the
 * similarity computation are outside the model: their results come in as parameters.
 */
module Core {
  import opened Wrappers

  /** The three concrete subclasses of `SpeakerSimilarityModel`. */
  datatype Family = WavLM | Resemblyzer | WeSpeaker

  /** The class name a family is defined under. */
  function ClassName(f: Family): string {
    match f
    case WavLM => "WavLM"
    case Resemblyzer => "Resemblyzer"
    case WeSpeaker => "WeSpeaker"
  }

  /** `getattr(core, name)` for the names that denote an instantiable family, None for any other name. */
  function ClassNamed(name: string): (f: Option<Family>)
    ensures f.Some? <==> name in {"WavLM", "Resemblyzer", "WeSpeaker"}
    ensures f.Some? ==> ClassName(f.value) == name
  {
    if name == "WavLM" then Some(WavLM)
    else if name == "Resemblyzer" then Some(Resemblyzer)
    else if name == "WeSpeaker" then Some(WeSpeaker)
    else None
  }

  /** Every family is found under its own class name. */
  lemma ClassNamedRoundTrip(f: Family)
    ensures ClassNamed(ClassName(f)) == Some(f)
  {
  }

  /** Element types of the arrays handed to the inference engine. */
  datatype DType = Float32 | Float64 | Int32 | Int64

  /** An n-dimensional array: element type, shape, and its elements in row-major order. */
  datatype Tensor = Tensor(dtype: DType, shape: seq<nat>, cells: seq<int>)

  /** `a.astype(d)`: same shape and elements, new element type. */
  function AsType(a: Tensor, d: DType): (r: Tensor)
    ensures r.dtype == d && r.shape == a.shape && r.cells == a.cells
  {
    a.(dtype := d)
  }

  /** `np.expand_dims(a, axis=0)`: a leading batch axis of size 1, elements unchanged. */
  function ExpandBatch(a: Tensor): (r: Tensor)
    ensures r.dtype == a.dtype && r.cells == a.cells
    ensures |r.shape| == |a.shape| + 1 && r.shape[0] == 1 && r.shape[1..] == a.shape
  {
    a.(shape := [1] + a.shape)
  }

  /** The input name whose tensor the WavLM binding converts to 64-bit integers. */
  const ATTENTION_MASK: string := "attention_mask"

  /** The value WavLM binds under an input name the extractor produced. */
  function WavLMBound(name: string, produced: Tensor): (r: Tensor)
    ensures r.shape == produced.shape && r.cells == produced.cells
    ensures name == ATTENTION_MASK ==> r.dtype == Int64
    ensures name != ATTENTION_MASK ==> r == produced
  {
    if name == ATTENTION_MASK then AsType(produced, Int64) else produced
  }

  /** The signature of a loaded inference graph: its declared input and output names, in order. */
  datatype Session = Session(inputs: seq<string>, outputs: seq<string>)

  /** How the manager constructs a model: the family's class and the arguments it is called with. */
  datatype Construction =
    | NewWavLM(modelPath: string, featureExtractorRepo: Option<string>)
    | NewResemblyzer(modelPath: string)
    | NewWeSpeaker(modelPath: string)
  {
    function Family(): Family {
      match this
      case NewWavLM(_, _) => WavLM
      case NewResemblyzer(_) => Resemblyzer
      case NewWeSpeaker(_) => WeSpeaker
    }
  }

  datatype CoreError =
    | NoInputName        // `self.input_names[0]` on a graph without inputs
    | NoOutput           // `embeddings[0]` on an empty output list
    | RunFailed(message: string)

  /** A loaded model; nothing about it changes once it is built. */
  class SpeakerSimilarityModel {
    const family: Family
    const session: Session
    const inputNames: seq<string>
    const outputNames: seq<string>
    /** Where WavLM's feature extractor was loaded from; the other families have none. */
    const featureExtractorRepo: Option<string>

    /**
     * The graph's inputs and outputs are read once, from the session loaded on the weights
     * file; loading it, which may fail, is the caller's step.
     */
    constructor (c: Construction, loaded: Session)
      ensures family == c.Family()
      ensures session == loaded
      ensures inputNames == loaded.inputs && outputNames == loaded.outputs
      ensures featureExtractorRepo == if c.NewWavLM? then c.featureExtractorRepo else None
    {
      family := c.Family();
      session := loaded;
      inputNames := loaded.inputs;
      outputNames := loaded.outputs;
      featureExtractorRepo := if c.NewWavLM? then c.featureExtractorRepo else None;
    }

    /** Every key of `features` is an input the graph declares. */
    ghost predicate AcceptedByGraph(features: map<string, Tensor>)
    {
      forall name :: name in features ==> name in inputNames
    }

    /**
     * `WavLM.extract_features` after the extractor ran: `produced` is what the extractor
     * returned. Keeps exactly the declared inputs that were produced, converts the
     * attention mask to int64 and passes every other kept array through unchanged.
     */
    method WavLMExtractFeatures(produced: map<string, Tensor>) returns (onnxInputs: map<string, Tensor>)
      requires family == WavLM
      ensures onnxInputs.Keys == set name | name in inputNames && name in produced
      ensures forall name :: name in onnxInputs ==> onnxInputs[name] == WavLMBound(name, produced[name])
      ensures AcceptedByGraph(onnxInputs)
    {
      onnxInputs := map[];
      for i := 0 to |inputNames|
        invariant onnxInputs.Keys == set name | name in inputNames[..i] && name in produced
        invariant forall name :: name in onnxInputs ==> name in produced && onnxInputs[name] == WavLMBound(name, produced[name])
      {
        var name := inputNames[i];
        assert inputNames[..i + 1] == inputNames[..i] + [name];
        if name in produced {
          var numpyArray := produced[name];
          if name == ATTENTION_MASK {
            onnxInputs := onnxInputs[name := AsType(numpyArray, Int64)];
          } else {
            onnxInputs := onnxInputs[name := numpyArray];
          }
        }
      }
      assert inputNames[..|inputNames|] == inputNames;
    }

    /**
     * `WeSpeaker.extract_features` after the filter bank was computed: the features, with a
     * batch axis, bound to the graph's first input, the only key of the result.
     */
    function WeSpeakerExtractFeatures(fbank: Tensor): (r: Result<map<string, Tensor>, CoreError>)
      requires family == WeSpeaker
      ensures r.Success? <==> inputNames != []
      ensures r.Failure? ==> r.error == NoInputName
      ensures r.Success? ==> r.value.Keys == {inputNames[0]} && r.value[inputNames[0]] == ExpandBatch(fbank)
      ensures r.Success? ==> AcceptedByGraph(r.value)
    {
      if inputNames == [] then Failure(NoInputName)
      else Success(map[inputNames[0] := ExpandBatch(fbank)])
    }

    /**
     * `Resemblyzer.extract_features` after the time-major mel spectrogram was computed:
     * converted to float32, given a batch axis and bound to the graph's first input only.
     */
    function ResemblyzerExtractFeatures(melFrames: Tensor): (r: Result<map<string, Tensor>, CoreError>)
      requires family == Resemblyzer
      ensures r.Success? <==> inputNames != []
      ensures r.Failure? ==> r.error == NoInputName
      ensures r.Success? ==> r.value.Keys == {inputNames[0]}
      ensures r.Success? ==> var t := r.value[inputNames[0]];
        t.dtype == Float32 && t.shape == [1] + melFrames.shape && t.cells == melFrames.cells
      ensures r.Success? ==> AcceptedByGraph(r.value)
    {
      if inputNames == [] then Failure(NoInputName)
      else Success(map[inputNames[0] := ExpandBatch(AsType(melFrames, Float32))])
    }

    /**
     * `infer`: runs the graph for all its outputs and returns the first one. `run` stands
     * for `session.run`, which may raise.
     */
    function Infer(features: map<string, Tensor>, run: (seq<string>, map<string, Tensor>) -> Result<seq<Tensor>, string>):
      (r: Result<Tensor, CoreError>)
      ensures r.Success? <==> run(outputNames, features).Success? && run(outputNames, features).value != []
      ensures r.Success? ==> r.value == run(outputNames, features).value[0]
      ensures run(outputNames, features).Failure? ==> r == Failure(RunFailed(run(outputNames, features).error))
    {
      match run(outputNames, features)
      case Failure(message) => Failure(RunFailed(message))
      case Success(embeddings) => if embeddings == [] then Failure(NoOutput) else Success(embeddings[0])
    }
  }
}
