/** Constructor hyperparameters of the recurrent encoders
    (xnmt/encoder.py:61-125): the global defaults they fall back on, Python's
    `value or default` fallback, and the arguments handed to the foreign
    builder each encoder creates. */
module Hyperparams {
  import opened Wrappers

  /** The two process-wide defaults the constructors read, passed explicitly
      instead of through global state. */
  datatype Globals = Globals(defaultLayerDim: int, dropout: real)

  /** A supplied value Python treats as false: missing (`None`) or zero. */
  predicate Unset<T(==)>(x: Option<T>, zero: T)
  {
    x.None? || x.value == zero
  }

  /** `x or fallback`: the supplied value unless it is unset, where `zero` is
      the type's zero (0 for dimensions, 0.0 for dropout). */
  function Or<T(==)>(x: Option<T>, zero: T, fallback: T): (r: T)
    ensures Unset(x, zero) ==> r == fallback
    ensures !Unset(x, zero) ==> r == x.value
  {
    match x
    case None => fallback
    case Some(v) => if v == zero then fallback else v
  }

  /** An explicitly requested dropout of 0.0 is indistinguishable from no
      request at all: both give the global default. */
  lemma ZeroDropoutFallsBack(g: Globals)
    ensures Or(Some(0.0), 0.0, g.dropout) == Or(None, 0.0, g.dropout) == g.dropout
  {
  }

  /** The foreign builder classes the encoders instantiate, with the
      arguments that select their structure. */
  datatype BuilderKind =
    | BiRnn                                        // dy.BiRNNBuilder over VanillaLSTM
    | VanillaLstm                                  // dy.VanillaLSTMBuilder
    | ResidualBiRnn(residualToOutput: bool)        // residual.ResidualBiRNNBuilder
    | ResidualRnn(residualToOutput: bool)          // residual.ResidualRNNBuilder
    | PyramidalRnn(downsamplingMethod: string, reduceFactor: int)
    | ConvBiRnn(chnDim: int, numFilters: int, filterSizeTime: int, filterSizeFreq: int, stride: (int, int))

  /** Everything a constructor hands to the builder it creates. */
  datatype BuilderSpec = BuilderSpec(kind: BuilderKind, layers: int, inputDim: int, hiddenDim: int)
}
