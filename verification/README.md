# xnmt encoder composition layer, in Dafny

This project models the encoder layer of the xnmt sequence-to-sequence toolkit (`xnmt/encoder.py`). An encoder turns a sequence of vectors into another sequence of vectors. The modelled pieces are:

- the builder adapter (`BuilderEncoder.transduce`). It runs a foreign delegate builder through whichever of two calling conventions the builder exposes. It raises `NotImplementedError` when the builder exposes neither.
- the identity encoder, and the modular encoder, which chains its modules left to right.
- train/eval mode propagation (`set_train`). Each recurrent leaf sets its builder's dropout. The modular encoder forwards the call to every module.
- the constructors' hyperparameter fallback, Python's `value or default`.
- the segmenting encoder's curriculum schedule. Its two fields, `ctr` and `lmbd_val`, are advanced by `new_epoch`. The current weight is forwarded by `calc_reinforce_loss`.

Vectors are a type parameter `V`. Every foreign computation is an arbitrary Dafny function: the delegate builders' transductions, the segmenting builder and its reinforcement loss. The defaults the source reads from global state (`default_layer_dim`, `dropout`) are passed in as a `Globals` record. The schedule uses exact `real` arithmetic.

Modules:

- `Wrappers` (`wrappers.dfy`): `Option` and `Result`.
- `Delegates` (`delegates.dfy`): delegate builders and the adapter.
- `Hyperparams` (`hyperparams.dfy`): the `or` fallback and the builder arguments.
- `Encoders` (`encoders.dfy`): the encoder tree, `transduce`, `set_train` and `calc_reinforce_loss`.
- `Constructors` (`constructors.dfy`): the encoders' `__init__`s.
- `Curriculum` (`curriculum.dfy`): the segmenting encoder's schedule.

Three points about the code that the model keeps:

- The code has no warm-up phase that holds the weight at `start`. It sets `start` only at construction. From the first `new_epoch` on, it always applies the exponential formula. The formula is negative before the counter reaches `before`, and when `min >= 0` it is then clamped to `min` (`Curriculum.BeforeWarmupWeightIsMin`, `Curriculum.FirstEpochCanDropStart`).
- `ModularEncoder` does not override `calc_reinforce_loss`, so it returns `None` even when its modules contribute a loss (`Encoders.CalcReinforceLoss`).
- The clamp is `min(., max)` followed by `max(., min)`, so when `min > max` the weight is `min` (`Curriculum.Weight`).

## Model

| member | source | states |
|---|---|---|
| `Delegates.Adapt` | xnmt/encoder.py:40-50 | a direct `transduce` is used whenever present; `initial_state().transduce` only when there is no direct one; the call fails with `NotImplementedError` exactly when neither exists; on success the output is exactly the delegate's output list |
| `Delegates.DirectWins` | xnmt/encoder.py:42-45 | with a direct `transduce`, the builder's `initial_state` (present or not) has no influence on the result |
| `Delegates.ConventionIrrelevant` | xnmt/encoder.py:43-50 | the same computation offered through either convention produces the same wrapped output |
| `Encoders.Transduce` | xnmt/encoder.py:39-56 | transducing any encoder tree succeeds if and only if every delegate builder in it exposes a calling convention; every failure is the `NotImplementedError` of `transduce` |
| `Encoders.Chain` | xnmt/encoder.py:141-144 | the module loop succeeds if and only if every module can run; failures are `NotImplementedError` |
| `Encoders.IdentityTransduce` | xnmt/encoder.py:55-56 | the identity encoder returns its input unchanged |
| `Encoders.EmptyModular` | xnmt/encoder.py:141-144 | a modular encoder with no modules returns its input unchanged |
| `Encoders.SingleModule` | xnmt/encoder.py:141-144 | a modular encoder with one module behaves as that module |
| `Encoders.ChainAppend` | xnmt/encoder.py:141-144 | running modules `a + b` is running `a` and feeding its output (or its failure) to `b` |
| `Encoders.PipelineOfThree` | xnmt/encoder.py:141-144 | modules `[a, b, c]` compute `c(b(a(x)))`, failures propagating |
| `Encoders.ModularAssociative` | xnmt/encoder.py:141-144 | concatenating module lists and nesting modular encoders give the same transduction |
| `Encoders.IdentityUnit` | xnmt/encoder.py:55-56 | an identity module at either end of a pipeline changes nothing |
| `Encoders.SetTrain` | xnmt/encoder.py:149-152 | after `set_train(v)` on any tree, every leaf builder's dropout is the leaf's configured dropout if `v` and 0.0 otherwise, and every segmenting builder is in mode `v`; shape, configured dropouts, computations and schedules are unchanged |
| `Encoders.SetTrainEach` | xnmt/encoder.py:150-152 | the module loop returns one module per module, each switched to mode `v` and otherwise configured as before |
| `Encoders.SetTrainLastWins` | xnmt/encoder.py:77-78 | two successive `set_train` calls leave the tree as the last one alone would, so train-then-eval leaves all dropout at 0.0 |
| `Encoders.SetTrainAsWritten` | xnmt/encoder.py:33-34 | the code's `set_train` raises `NotImplementedError` if and only if the tree contains an identity encoder |
| `Encoders.SetTrainEachAsWritten` | xnmt/encoder.py:150-152 | the module loop succeeds if and only if no module contains an identity encoder, and then returns one updated module per module |
| `Encoders.IdentityBlocksSetTrain` | xnmt/encoder.py:52-56 | `set_train` on an identity encoder, or on a pipeline starting with one, raises |
| `Encoders.SetTrainAgrees` | xnmt/encoder.py:149-152 | on trees without an identity encoder the code's `set_train` succeeds with exactly the result of `Encoders.SetTrain` |
| `Encoders.CalcReinforceLoss` | xnmt/encoder.py:172-173 | the result is present if and only if the encoder is a segmenting encoder, and then it is the builder's loss for the reward at the current weight; every other encoder gives `None` |
| `Encoders.ReinforceLossAfterEpochs` | xnmt/encoder.py:172-180 | after `n` epochs from construction the loss is computed at `start` (n = 0) or at the schedule's value for counter `n` |
| `Hyperparams.Or` | xnmt/encoder.py:64-66 | `x or default` gives the default when `x` is None or zero, and `x` otherwise |
| `Hyperparams.ZeroDropoutFallsBack` | xnmt/encoder.py:66 | an explicit dropout of 0.0 gives the global dropout, like an absent one |
| `Constructors.LstmSpec` | xnmt/encoder.py:61-74 | `LSTMEncoder` resolves input and hidden dimension against the default layer dimension and builds a BiRNN when bidirectional, a single LSTM otherwise |
| `Constructors.ResidualSpec` | xnmt/encoder.py:83-92 | `ResidualLSTMEncoder` resolves only the hidden dimension; the input dimension is passed on as given |
| `Constructors.PyramidalSpec` | xnmt/encoder.py:101-108 | `PyramidalLSTMEncoder` resolves only the hidden dimension and passes downsampling method and reduce factor to its builder |
| `Constructors.ConvSpec` | xnmt/encoder.py:117-125 | `ConvBiRNNBuilder` resolves only the hidden dimension and passes the convolution arguments to its builder |
| `Constructors.NewLeaf` | xnmt/encoder.py:87-88 | a leaf keeps the global dropout when none or 0.0 was requested, the requested one otherwise, and owns the builder made from its arguments |
| `Constructors.NewLstmEncoder` | xnmt/encoder.py:61-74 | an `LSTMEncoder` is a leaf of its own kind owning the builder made from its resolved arguments, with the global dropout when none or 0.0 was requested |
| `Constructors.NewResidualLstmEncoder` | xnmt/encoder.py:83-92 | a `ResidualLSTMEncoder` is a leaf of its own kind owning the residual builder made from its arguments, dropout resolved as for every leaf |
| `Constructors.NewPyramidalLstmEncoder` | xnmt/encoder.py:101-108 | a `PyramidalLSTMEncoder` is a leaf of its own kind owning the pyramidal builder made from its arguments, dropout resolved as for every leaf |
| `Constructors.NewConvBiRnnEncoder` | xnmt/encoder.py:117-125 | a `ConvBiRNNBuilder` encoder is a leaf of its own kind owning the convolutional builder made from its arguments, dropout resolved as for every leaf |
| `Constructors.LstmEncoderZeroIsUnset` | xnmt/encoder.py:64-66 | an `LSTMEncoder` asked for zero dimensions and zero dropout is the same as one given none of them |
| `Constructors.NewSegmenting` | xnmt/encoder.py:157-161 | a new segmenting encoder has counter 0 and weight `start` |
| `Constructors.NewSegmentingAsWritten` | xnmt/encoder.py:157-163 | the constructor succeeds exactly when the global name `segmenting_encoder` is bound, and then gives the fresh encoder; otherwise it fails with `NameError` for that name |
| `Constructors.SegmentingNeverBuilt` | xnmt/encoder.py:1-16 | with the names the file's imports bind, every `SegmentingEncoder(...)` fails with `NameError` |
| `Constructors.ImportRepairsSegmenting` | xnmt/encoder.py:157-163 | once `segmenting_encoder` is imported, the constructor gives exactly the fresh encoder |
| `Constructors.LeafModeRoundTrip` | xnmt/encoder.py:77-78 | a new leaf switched to eval has dropout 0.0, and switched back to train has its resolved dropout again |
| `Curriculum.Pow2` | xnmt/encoder.py:178 | `2 ** k` is positive for every integer exponent, negative ones included |
| `Curriculum.Weight` | xnmt/encoder.py:178-180 | the weight is never below `min`; with `min <= max` it lies in `[min, max]` and equals the formula inside the bounds, `max` above and `min` below; with `min > max` it is `min` |
| `Curriculum.Fresh` | xnmt/encoder.py:160-161 | construction sets `ctr = 0` and `lmbd_val = start`, which establishes the invariant `Reachable` that `new_epoch` preserves |
| `Curriculum.NewEpoch` | xnmt/encoder.py:175-180 | `new_epoch` raises the counter by exactly 1, keeps the configuration, leaves a weight in `[min, max]` (when `min <= max`), and leaves a state whose weight is the formula's value for its counter |
| `Curriculum.RawIncreasing` | xnmt/encoder.py:178 | the unclamped formula grows strictly with the counter |
| `Curriculum.WeightMonotone` | xnmt/encoder.py:178-180 | the clamped weight never decreases as the counter grows, whatever the bounds |
| `Curriculum.BeforeWarmupWeightIsMin` | xnmt/encoder.py:178-180 | before `before` the formula is negative, and with `min >= 0` the weight is `min`, not `start` |
| `Curriculum.Saturated` | xnmt/encoder.py:179-180 | once the weight reaches `max` it stays there for every later counter |
| `Curriculum.EventuallySaturates` | xnmt/encoder.py:178-180 | with `min <= max` the weight is `max` as soon as `0.002 * (ctr - before) >= max` |
| `Curriculum.EpochsRecompute` | xnmt/encoder.py:175-180 | `n` calls of `new_epoch` advance the counter by `n` and, for `n > 0`, leave the formula's value at the final counter whatever the earlier weight |
| `Curriculum.EpochsFromFresh` | xnmt/encoder.py:160-180 | `n` epochs from construction give the same weight as evaluating the schedule once at counter `n` |
| `Curriculum.NewEpochForgetsWeight` | xnmt/encoder.py:178 | the new weight does not depend on the previous weight |
| `Curriculum.EpochsReachable` | xnmt/encoder.py:175-180 | every state reached from a fresh one by `new_epoch` calls holds `start` at counter 0 and the formula's value otherwise |
| `Curriculum.NewEpochNonDecreasing` | xnmt/encoder.py:175-180 | from the first epoch on, `new_epoch` never lowers the weight |
| `Curriculum.FirstEpochCanDropStart` | xnmt/encoder.py:161-180 | the first `new_epoch` can lower the weight below `start` (start 0.5, before 5, min 0, max 1 gives 0) |
| `Curriculum.ExampleSchedule` | xnmt/encoder.py:178-180 | for start 0, before 5, min 0, max 1: weight 0 at counter 4, 0.002 at 6, 0.062 at 10, 0.51 at 13, and 1 from 14 on |

## Findings

| source | as written | input that shows it | evidently intended | confidence | as-written member | corrected member |
|---|---|---|---|---|---|---|
| xnmt/encoder.py:52-56 | `IdentityEncoder` defines no `set_train`, so it inherits the base `Encoder.set_train`, which raises `NotImplementedError` (xnmt/encoder.py:33-34); `ModularEncoder.set_train` calls `set_train` on every module | `ModularEncoder(modules=[IdentityEncoder(), LSTMEncoder()]).set_train(True)` raises | the identity encoder has no dropout, so switching its mode should do nothing | medium, not executed | `Encoders.SetTrainAsWritten`, `Encoders.IdentityBlocksSetTrain` | `Encoders.SetTrain`, `Encoders.SetTrainAgrees` |
| xnmt/encoder.py:163 | `SegmentingEncoder.__init__` calls `segmenting_encoder.SegmentingEncoderBuilder`, but the file never imports `segmenting_encoder` (xnmt/encoder.py:1-13), so the call raises `NameError` after the counter and weight are set | `SegmentingEncoder(lmbd={"start": 0.0, "before": 5, "min": 0.0, "max": 1.0})` raises | the module is imported and the constructor builds the encoder | high, not executed | `Constructors.NewSegmentingAsWritten`, `Constructors.SegmentingNeverBuilt` | `Constructors.NewSegmenting`, `Constructors.ImportRepairsSegmenting` |

The rest of the model uses `Encoders.SetTrain` and `Constructors.NewSegmenting`.

## Left out

- Constructors.NewSegmenting: always succeeds. The source raises `NameError` at xnmt/encoder.py:163 because `segmenting_encoder` is not imported. The segmenting encoder's schedule, transduction and loss are modelled as if the name were bound. `Constructors.NewSegmentingAsWritten` models the failure.
- Curriculum.Schedule: `before` is an integer. A float `before` in the configuration, which would make the exponent a float, is not modelled.
- Curriculum.NewEpoch: never fails. In the source, `1e-3 * (2 * (2 ** k - 1))` with `k = ctr - before` converts a Python int of about `2 ** (k + 1)` to a float, and raises `OverflowError` once `k` reaches 1023. The model keeps returning the clamped weight, so `Curriculum.Saturated` and `Curriculum.ExampleSchedule` describe the model beyond that point, not the source.
- Encoders.Transduce: the delegates' and the segmenting builder's computations are total functions here. In the source, any exception raised inside a builder (xnmt/encoder.py:43, 45, 166, and through the modules at 143) propagates to the caller. So "succeeds if and only if every builder exposes a convention", for `Encoders.Transduce` and `Encoders.Chain`, describes the model only.
- `ModularEncoder`'s `input_dim` argument: it is only declared as shared with the first module's (`shared_params`) and is not kept, so the modular encoder is built directly as `Modular(modules)`.
- The numeric work of the foreign builders (DyNet's `BiRNNBuilder`, `VanillaLSTMBuilder`, and the residual, pyramidal and convolutional builders). Their code is not part of this model, so they are uninterpreted functions. Dropout is only recorded as the builder's state and does not change their outputs.
- The pyramidal encoder's length reduction. It happens inside `pyramidal.PyramidalRNNBuilder`, which is not part of this model.
- The segmenting builder's internals (`segmenting_encoder.SegmentingEncoderBuilder`). The module is never imported in `xnmt/encoder.py`. Its transduction, its reinforcement loss and its mode are opaque. Its tensor output is represented as a sequence.
- `ExpressionSequence`: wrapping a list as a sequence is the identity on its contents here.
- The abstract base `Encoder`'s `transduce` and `set_train` faults. The encoder datatype is closed and has no instance of the bare base class. The identity encoder's inherited `set_train` fault is modelled.
- The `@recursive` decorator's reflective propagation and `get_train_test_components`. Only the explicit loop in `ModularEncoder.set_train` is modelled.
- YAML tags, `Serializable`, and `shared_params`. The shared-parameter constraint is declared here and enforced by the configuration loader, which is not part of this model.
- `model_globals` and the DyNet parameter collection. The defaults are the explicit `Globals` record, and builder creation is a parameter.
- The `print` in `new_epoch`, and the disabled multiplicative update on the line before the formula.
- Floating-point rounding of `1e-3` and `2 ** k`: the schedule is computed in exact reals.
- Encoders.SetTrainAsWritten: the foreign calls `self.builder.set_dropout(...)` (xnmt/encoder.py:78, 96, 112, 129) and `self.builder.set_train(val)` (xnmt/encoder.py:170) never raise here. In the source an exception from them propagates. So "raises if and only if the tree contains an identity encoder", for `Encoders.SetTrainAsWritten` and `Encoders.SetTrainEachAsWritten`, describes the model only.
- `SetTrainAsWritten`: when a module raises, Python has already switched the modules before it. The `Result` model does not keep those partial updates.
- `SegmentingEncoder` with its default `lmbd=None`, which fails with a `TypeError`. The model requires a schedule.
- Python keyword defaults such as `layers=1`, `input_dim=512` and `reduce_factor=2`. They are arguments the caller supplies.
- `ConvBiRNNBuilder` sets itself up in a method named `init_builder`, not `__init__`. `Constructors.ConvSpec` models that method as its constructor.
- The `input_dim`, `layers` and `hidden_dim` attributes that `LSTMEncoder` stores. Nothing in the encoder layer reads them, so the leaf keeps only its dropout and its builder.
- `xnmt/eval_task.py`: evaluation orchestration. It covers file reading, external inference, evaluator calls and floating-point loss accumulation.
