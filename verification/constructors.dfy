/** The constructors of the concrete encoders (xnmt/encoder.py:61-163).

    Each recurrent encoder resolves its hyperparameters against the global
    defaults, keeps its dropout for later `set_train` calls, and creates one
    foreign builder.  Builder creation is a parameter `make`: the model only
    records what is handed to it. */
module Constructors {
  import opened Wrappers
  import opened Delegates
  import opened Hyperparams
  import opened Encoders
  import Curriculum

  /** The builder arguments of `LSTMEncoder`: input and hidden dimension fall
      back to the default layer dimension; `bidirectional` picks a BiRNN over
      LSTMs, otherwise a single LSTM. */
  function LstmSpec(g: Globals, inputDim: Option<int>, layers: int, hiddenDim: Option<int>, bidirectional: bool): (s: BuilderSpec)
    ensures s.kind == (if bidirectional then BiRnn else VanillaLstm)
    ensures s.layers == layers
    ensures Unset(inputDim, 0) ==> s.inputDim == g.defaultLayerDim
    ensures !Unset(inputDim, 0) ==> s.inputDim == inputDim.value
    ensures Unset(hiddenDim, 0) ==> s.hiddenDim == g.defaultLayerDim
    ensures !Unset(hiddenDim, 0) ==> s.hiddenDim == hiddenDim.value
  {
    BuilderSpec(if bidirectional then BiRnn else VanillaLstm, layers,
                Or(inputDim, 0, g.defaultLayerDim), Or(hiddenDim, 0, g.defaultLayerDim))
  }

  /** The builder arguments of `ResidualLSTMEncoder`: only the hidden
      dimension falls back; the input dimension is passed on as given, even
      when it is 0. */
  function ResidualSpec(g: Globals, inputDim: int, layers: int, hiddenDim: Option<int>, residualToOutput: bool, bidirectional: bool): (s: BuilderSpec)
    ensures s.kind == (if bidirectional then ResidualBiRnn(residualToOutput) else ResidualRnn(residualToOutput))
    ensures s.layers == layers && s.inputDim == inputDim
    ensures Unset(hiddenDim, 0) ==> s.hiddenDim == g.defaultLayerDim
    ensures !Unset(hiddenDim, 0) ==> s.hiddenDim == hiddenDim.value
  {
    var kind := if bidirectional then ResidualBiRnn(residualToOutput) else ResidualRnn(residualToOutput);
    BuilderSpec(kind, layers, inputDim, Or(hiddenDim, 0, g.defaultLayerDim))
  }

  /** The builder arguments of `PyramidalLSTMEncoder`. */
  function PyramidalSpec(g: Globals, inputDim: int, layers: int, hiddenDim: Option<int>, downsamplingMethod: string, reduceFactor: int): (s: BuilderSpec)
    ensures s.kind == PyramidalRnn(downsamplingMethod, reduceFactor)
    ensures s.layers == layers && s.inputDim == inputDim
    ensures Unset(hiddenDim, 0) ==> s.hiddenDim == g.defaultLayerDim
    ensures !Unset(hiddenDim, 0) ==> s.hiddenDim == hiddenDim.value
  {
    BuilderSpec(PyramidalRnn(downsamplingMethod, reduceFactor), layers, inputDim, Or(hiddenDim, 0, g.defaultLayerDim))
  }

  /** The builder arguments of `ConvBiRNNBuilder.init_builder`. */
  function ConvSpec(g: Globals, inputDim: int, layers: int, hiddenDim: Option<int>, chnDim: int, numFilters: int,
                    filterSizeTime: int, filterSizeFreq: int, stride: (int, int)): (s: BuilderSpec)
    ensures s.kind == ConvBiRnn(chnDim, numFilters, filterSizeTime, filterSizeFreq, stride)
    ensures s.layers == layers && s.inputDim == inputDim
    ensures Unset(hiddenDim, 0) ==> s.hiddenDim == g.defaultLayerDim
    ensures !Unset(hiddenDim, 0) ==> s.hiddenDim == hiddenDim.value
  {
    BuilderSpec(ConvBiRnn(chnDim, numFilters, filterSizeTime, filterSizeFreq, stride), layers, inputDim,
                Or(hiddenDim, 0, g.defaultLayerDim))
  }

  /** A leaf encoder around the builder made from `spec`, keeping the
      resolved dropout: the global dropout when none or 0.0 was requested. */
  function NewLeaf<V>(kind: LeafKind, g: Globals, make: BuilderSpec -> Delegate<V>, spec: BuilderSpec, dropout: Option<real>): (e: Encoder<V>)
    ensures e.Leaf? && e.kind == kind && e.builder == make(spec)
    ensures Unset(dropout, 0.0) ==> e.dropout == g.dropout
    ensures !Unset(dropout, 0.0) ==> e.dropout == dropout.value
  {
    Leaf(kind, Or(dropout, 0.0, g.dropout), make(spec))
  }

  /** `LSTMEncoder(input_dim, layers, hidden_dim, dropout, bidirectional)`. */
  function NewLstmEncoder<V>(g: Globals, make: BuilderSpec -> Delegate<V>, inputDim: Option<int>, layers: int,
                             hiddenDim: Option<int>, dropout: Option<real>, bidirectional: bool): (e: Encoder<V>)
    ensures e.Leaf? && e.kind == LstmEncoder
    ensures e.builder == make(LstmSpec(g, inputDim, layers, hiddenDim, bidirectional))
    ensures Unset(dropout, 0.0) ==> e.dropout == g.dropout
    ensures !Unset(dropout, 0.0) ==> e.dropout == dropout.value
  {
    NewLeaf(LstmEncoder, g, make, LstmSpec(g, inputDim, layers, hiddenDim, bidirectional), dropout)
  }

  /** `ResidualLSTMEncoder(input_dim, layers, hidden_dim, residual_to_output, dropout, bidirectional)`. */
  function NewResidualLstmEncoder<V>(g: Globals, make: BuilderSpec -> Delegate<V>, inputDim: int, layers: int,
                                     hiddenDim: Option<int>, residualToOutput: bool, dropout: Option<real>,
                                     bidirectional: bool): (e: Encoder<V>)
    ensures e.Leaf? && e.kind == ResidualLstmEncoder
    ensures e.builder == make(ResidualSpec(g, inputDim, layers, hiddenDim, residualToOutput, bidirectional))
    ensures Unset(dropout, 0.0) ==> e.dropout == g.dropout
    ensures !Unset(dropout, 0.0) ==> e.dropout == dropout.value
  {
    NewLeaf(ResidualLstmEncoder, g, make, ResidualSpec(g, inputDim, layers, hiddenDim, residualToOutput, bidirectional), dropout)
  }

  /** `PyramidalLSTMEncoder(input_dim, layers, hidden_dim, downsampling_method, reduce_factor, dropout)`. */
  function NewPyramidalLstmEncoder<V>(g: Globals, make: BuilderSpec -> Delegate<V>, inputDim: int, layers: int,
                                      hiddenDim: Option<int>, downsamplingMethod: string, reduceFactor: int,
                                      dropout: Option<real>): (e: Encoder<V>)
    ensures e.Leaf? && e.kind == PyramidalLstmEncoder
    ensures e.builder == make(PyramidalSpec(g, inputDim, layers, hiddenDim, downsamplingMethod, reduceFactor))
    ensures Unset(dropout, 0.0) ==> e.dropout == g.dropout
    ensures !Unset(dropout, 0.0) ==> e.dropout == dropout.value
  {
    NewLeaf(PyramidalLstmEncoder, g, make, PyramidalSpec(g, inputDim, layers, hiddenDim, downsamplingMethod, reduceFactor), dropout)
  }

  /** `ConvBiRNNBuilder.init_builder(input_dim, layers, hidden_dim, chn_dim, num_filters,
      filter_size_time, filter_size_freq, stride, dropout)`. */
  function NewConvBiRnnEncoder<V>(g: Globals, make: BuilderSpec -> Delegate<V>, inputDim: int, layers: int,
                                  hiddenDim: Option<int>, chnDim: int, numFilters: int, filterSizeTime: int,
                                  filterSizeFreq: int, stride: (int, int), dropout: Option<real>): (e: Encoder<V>)
    ensures e.Leaf? && e.kind == ConvBiRnnEncoder
    ensures e.builder == make(ConvSpec(g, inputDim, layers, hiddenDim, chnDim, numFilters, filterSizeTime, filterSizeFreq, stride))
    ensures Unset(dropout, 0.0) ==> e.dropout == g.dropout
    ensures !Unset(dropout, 0.0) ==> e.dropout == dropout.value
  {
    NewLeaf(ConvBiRnnEncoder, g, make,
            ConvSpec(g, inputDim, layers, hiddenDim, chnDim, numFilters, filterSizeTime, filterSizeFreq, stride), dropout)
  }

  /** Zero and `None` are the same request: an `LSTMEncoder` given zero
      dimensions and zero dropout is the one given none of them. */
  lemma LstmEncoderZeroIsUnset<V>(g: Globals, make: BuilderSpec -> Delegate<V>, layers: int, bidirectional: bool)
    ensures NewLstmEncoder(g, make, Some(0), layers, Some(0), Some(0.0), bidirectional)
         == NewLstmEncoder(g, make, None, layers, None, None, bidirectional)
  {
  }

  /** `SegmentingEncoder(...)`: counter 0 and weight `start`. */
  function NewSegmenting<V>(lmbd: Curriculum.Schedule, seg: SegmentingBuilder<V>): (e: Encoder<V>)
    ensures e.Segmenting? && e.seg == seg
    ensures e.state.lmbd == lmbd && e.state.ctr == 0 && e.state.lmbdVal == lmbd.start
    ensures Curriculum.Reachable(e.state)
  {
    Segmenting(Curriculum.Fresh(lmbd), seg)
  }

  /** The global names the top of `xnmt/encoder.py` binds by its imports
      (`import dynet as dy` binds `dy`, `from decorators import recursive`
      binds `recursive`, and so on) and by its `Serializable` shortcut. */
  const EncoderImports: set<string> :=
    {"dy", "model", "embedder", "serializer", "model_globals", "recursive",
     "ExpressionSequence", "pyramidal", "conv_encoder", "residual", "Serializable"}

  /** `SegmentingEncoder(...)` as the code is written: after setting the
      counter and the weight it resolves the global name `segmenting_encoder`,
      one of `imports` if bound at all, and raises `NameError` when it is not. */
  function NewSegmentingAsWritten<V>(imports: set<string>, lmbd: Curriculum.Schedule, seg: SegmentingBuilder<V>): (r: Result<Encoder<V>, Error>)
    ensures r.Ok? <==> "segmenting_encoder" in imports
    ensures r.Err? ==> r.error == NameNotDefined("segmenting_encoder")
    ensures r.Ok? ==> r.value == NewSegmenting(lmbd, seg)
  {
    if "segmenting_encoder" in imports then Ok(Segmenting(Curriculum.Fresh(lmbd), seg))
    else Err(NameNotDefined("segmenting_encoder"))
  }

  /** With the imports the file actually has, no segmenting encoder can be
      constructed, whatever its configuration. */
  lemma SegmentingNeverBuilt<V>(lmbd: Curriculum.Schedule, seg: SegmentingBuilder<V>)
    ensures NewSegmentingAsWritten(EncoderImports, lmbd, seg) == Err(NameNotDefined("segmenting_encoder"))
  {
  }

  /** Importing the missing module is all the constructor lacks: it then
      builds the fresh encoder `NewSegmenting` describes. */
  lemma ImportRepairsSegmenting<V>(lmbd: Curriculum.Schedule, seg: SegmentingBuilder<V>)
    ensures NewSegmentingAsWritten(EncoderImports + {"segmenting_encoder"}, lmbd, seg) == Ok(NewSegmenting(lmbd, seg))
  {
  }

  /** A freshly built leaf switched to evaluation mode has dropout 0.0 even
      when it was configured with the global default; switched back to
      training mode it uses that default again. */
  lemma LeafModeRoundTrip<V>(kind: LeafKind, g: Globals, make: BuilderSpec -> Delegate<V>, spec: BuilderSpec, dropout: Option<real>)
    ensures SetTrain(NewLeaf(kind, g, make, spec, dropout), false).builder.dropout == 0.0
    ensures SetTrain(SetTrain(NewLeaf(kind, g, make, spec, dropout), false), true).builder.dropout
         == Or(dropout, 0.0, g.dropout)
  {
  }
}
