/** The encoder tree (xnmt/encoder.py:19-182): every encoder variant, how a
    sequence flows through it (`transduce`), how train/eval mode reaches its
    delegates (`set_train`), and the reinforcement-loss hook
    (`calc_reinforce_loss`). */
module Encoders {
  import opened Wrappers
  import opened Delegates
  import Curriculum

  /** The concrete `BuilderEncoder` subclasses; they differ only in the
      builder they construct. */
  datatype LeafKind = LstmEncoder | ResidualLstmEncoder | PyramidalLstmEncoder | ConvBiRnnEncoder

  /** The segmenting encoder's builder: its segment-level transduction, its
      reinforcement loss from a reward and a weight, and the mode it was last
      switched to.  The reward and the loss are computation-graph expressions,
      the same opaque handle type `V` as the vectors; only the weight is a
      plain number. */
  datatype SegmentingBuilder<!V> = SegmentingBuilder(
    transduce: Transducer<V>,
    reinforceLoss: (V, real) -> V,
    train: bool)

  datatype Encoder<!V> =
    | Identity
      /** A `BuilderEncoder` with its configured dropout and owned delegate. */
    | Leaf(kind: LeafKind, dropout: real, builder: Delegate<V>)
    | Modular(modules: seq<Encoder<V>>)
    | Segmenting(state: Curriculum.SegState, seg: SegmentingBuilder<V>)

  /** Every delegate in the tree exposes a convention the adapter can call. */
  predicate Runnable<V>(e: Encoder<V>)
  {
    match e
    case Identity => true
    case Leaf(_, _, b) => Callable(b)
    case Modular(ms) => forall i | 0 <= i < |ms| :: Runnable(ms[i])
    case Segmenting(_, _) => true
  }

  /** `transduce`.  A pipeline fails exactly when one of the delegates it
      reaches exposes no calling convention. */
  function Transduce<V>(e: Encoder<V>, sent: seq<V>): (r: Result<seq<V>, Error>)
    ensures r.Ok? <==> Runnable(e)
    ensures r.Err? ==> r.error == Unimplemented(TransduceOp)
    decreases e
  {
    match e
    case Identity => Ok(sent)
    case Leaf(_, _, b) => Adapt(b, sent)
    case Modular(ms) => Chain(ms, sent)
    case Segmenting(_, seg) => Ok(seg.transduce(sent))
  }

  /** `ModularEncoder.transduce`: each module consumes the previous module's
      output, left to right; the first failure ends the pipeline. */
  function Chain<V>(ms: seq<Encoder<V>>, sent: seq<V>): (r: Result<seq<V>, Error>)
    ensures r.Ok? <==> forall i | 0 <= i < |ms| :: Runnable(ms[i])
    ensures r.Err? ==> r.error == Unimplemented(TransduceOp)
    decreases ms
  {
    if ms == [] then Ok(sent)
    else
      match Transduce(ms[0], sent)
      case Err(err) => Err(err)
      case Ok(next) => Chain(ms[1..], next)
  }

  /** Feed the outcome of a stage to encoder `e`. */
  function Bind<V>(r: Result<seq<V>, Error>, e: Encoder<V>): Result<seq<V>, Error>
  {
    match r
    case Err(err) => Err(err)
    case Ok(sent) => Transduce(e, sent)
  }

  /** Feed the outcome of a stage to the pipeline `ms`. */
  function Then<V>(r: Result<seq<V>, Error>, ms: seq<Encoder<V>>): Result<seq<V>, Error>
  {
    match r
    case Err(err) => Err(err)
    case Ok(sent) => Chain(ms, sent)
  }

  /** The identity encoder hands its input back unchanged. */
  lemma IdentityTransduce<V>(sent: seq<V>)
    ensures Transduce(Identity, sent) == Ok(sent)
  {
  }

  /** An empty pipeline returns its input unchanged. */
  lemma EmptyModular<V>(sent: seq<V>)
    ensures Transduce(Modular([]), sent) == Ok(sent)
  {
  }

  /** A one-module pipeline is that module. */
  lemma SingleModule<V>(e: Encoder<V>, sent: seq<V>)
    ensures Transduce(Modular([e]), sent) == Transduce(e, sent)
  {
    assert [e][0] == e && [e][1..] == [];
    match Transduce(e, sent)
    case Err(_) =>
    case Ok(next) =>
      assert Chain([e], sent) == Chain([], next);
  }

  /** Running the concatenation of two pipelines is running the first and
      feeding its output to the second. */
  lemma {:induction false} ChainAppend<V>(a: seq<Encoder<V>>, b: seq<Encoder<V>>, sent: seq<V>)
    ensures Chain(a + b, sent) == Then(Chain(a, sent), b)
    decreases a
  {
    if a == [] {
      assert a + b == b;
    } else {
      assert (a + b)[0] == a[0];
      assert (a + b)[1..] == a[1..] + b;
      match Transduce(a[0], sent)
      case Err(_) =>
      case Ok(next) =>
        ChainAppend(a[1..], b, next);
    }
  }

  /** `[a, b, c]` computes `c(b(a(x)))`. */
  lemma PipelineOfThree<V>(a: Encoder<V>, b: Encoder<V>, c: Encoder<V>, sent: seq<V>)
    ensures Transduce(Modular([a, b, c]), sent) == Bind(Bind(Transduce(a, sent), b), c)
  {
    ChainAppend([a], [b, c], sent);
    assert [a] + [b, c] == [a, b, c];
    SingleModule(a, sent);
    match Transduce(a, sent)
    case Err(_) =>
    case Ok(x) =>
      ChainAppend([b], [c], x);
      assert [b] + [c] == [b, c];
      SingleModule(b, x);
      match Transduce(b, x)
      case Err(_) =>
      case Ok(y) =>
        SingleModule(c, y);
  }

  /** Composition is associative: nesting pipelines and concatenating them
      give the same encoder. */
  lemma ModularAssociative<V>(a: seq<Encoder<V>>, b: seq<Encoder<V>>, sent: seq<V>)
    ensures Transduce(Modular(a + b), sent) == Transduce(Modular([Modular(a), Modular(b)]), sent)
  {
    ChainAppend(a, b, sent);
    ChainAppend([Modular(a)], [Modular(b)], sent);
    assert [Modular(a)] + [Modular(b)] == [Modular(a), Modular(b)];
    SingleModule(Modular(a), sent);
    match Chain(a, sent)
    case Err(_) =>
    case Ok(x) =>
      SingleModule(Modular(b), x);
  }

  /** The identity encoder is a unit of composition on either side. */
  lemma IdentityUnit<V>(ms: seq<Encoder<V>>, sent: seq<V>)
    ensures Transduce(Modular([Identity] + ms), sent) == Transduce(Modular(ms), sent)
    ensures Transduce(Modular(ms + [Identity]), sent) == Transduce(Modular(ms), sent)
  {
    ChainAppend([Identity], ms, sent);
    SingleModule(Identity, sent);
    ChainAppend(ms, [Identity], sent);
    match Chain(ms, sent)
    case Err(_) =>
    case Ok(x) =>
      SingleModule(Identity, x);
  }

  /** Every delegate and segmenting builder in the tree is in mode `val`:
      dropout at its configured value in train mode and at 0.0 otherwise. */
  predicate InMode<V>(e: Encoder<V>, val: bool)
  {
    match e
    case Identity => true
    case Leaf(_, p, b) => b.dropout == (if val then p else 0.0)
    case Modular(ms) => forall i | 0 <= i < |ms| :: InMode(ms[i], val)
    case Segmenting(_, seg) => seg.train == val
  }

  /** Two trees differ at most in their mode state: same shape, same
      configured dropouts, same delegate computations, same schedule. */
  ghost predicate SameConfig<V>(a: Encoder<V>, b: Encoder<V>)
    decreases a
  {
    match a
    case Identity => b.Identity?
    case Leaf(k, p, d) =>
      && b.Leaf? && b.kind == k && b.dropout == p
      && b.builder.transduce == d.transduce && b.builder.initialState == d.initialState
    case Modular(ms) =>
      && b.Modular? && |b.modules| == |ms|
      && forall i | 0 <= i < |ms| :: SameConfig(ms[i], b.modules[i])
    case Segmenting(s, seg) =>
      && b.Segmenting? && b.state == s
      && b.seg.transduce == seg.transduce && b.seg.reinforceLoss == seg.reinforceLoss
  }

  /** `set_train`, with the identity encoder treated as having no mode (see
      `SetTrainAsWritten` for the code as it stands).  Every leaf sets its
      delegate's dropout, the modular encoder forwards to every module, the
      segmenting encoder forwards to its builder; nothing else changes. */
  function SetTrain<V>(e: Encoder<V>, val: bool): (r: Encoder<V>)
    ensures InMode(r, val)
    ensures SameConfig(e, r)
    decreases e
  {
    match e
    case Identity => Identity
    case Leaf(k, p, b) => Leaf(k, p, b.(dropout := if val then p else 0.0))
    case Modular(ms) => Modular(SetTrainEach(ms, val))
    case Segmenting(s, seg) => Segmenting(s, seg.(train := val))
  }

  /** The loop of `ModularEncoder.set_train`: every module, in order, is
      switched to mode `val` and otherwise left as configured. */
  function SetTrainEach<V>(ms: seq<Encoder<V>>, val: bool): (rs: seq<Encoder<V>>)
    ensures |rs| == |ms|
    ensures forall i | 0 <= i < |ms| :: InMode(rs[i], val) && SameConfig(ms[i], rs[i])
    decreases ms
  {
    seq(|ms|, i requires 0 <= i < |ms| => SetTrain(ms[i], val))
  }

  /** Only the last mode switch matters: `set_train(true)` followed by
      `set_train(false)` leaves every delegate's dropout at 0.0. */
  lemma {:induction false} SetTrainLastWins<V>(e: Encoder<V>, a: bool, b: bool)
    ensures SetTrain(SetTrain(e, a), b) == SetTrain(e, b)
    decreases e
  {
    match e
    case Identity =>
    case Leaf(_, _, _) =>
    case Segmenting(_, _) =>
    case Modular(ms) =>
      var inner := SetTrainEach(ms, a);
      forall i | 0 <= i < |ms|
        ensures SetTrain(inner[i], b) == SetTrain(ms[i], b)
      {
        SetTrainLastWins(ms[i], a, b);
      }
  }

  /** The tree contains an identity encoder somewhere. */
  predicate HasIdentity<V>(e: Encoder<V>)
  {
    match e
    case Identity => true
    case Modular(ms) => exists i | 0 <= i < |ms| :: HasIdentity(ms[i])
    case _ => false
  }

  /** `set_train` as the code stands: `IdentityEncoder` does not override the
      base method, which raises `NotImplementedError`, and the modular encoder
      calls `set_train` on every module in order. */
  function SetTrainAsWritten<V>(e: Encoder<V>, val: bool): (r: Result<Encoder<V>, Error>)
    ensures r.Ok? <==> !HasIdentity(e)
    ensures r.Err? ==> r.error == Unimplemented(SetTrainOp)
    decreases e
  {
    match e
    case Identity => Err(Unimplemented(SetTrainOp))
    case Leaf(k, p, b) => Ok(Leaf(k, p, b.(dropout := if val then p else 0.0)))
    case Modular(ms) =>
      (match SetTrainEachAsWritten(ms, val)
       case Err(err) => Err(err)
       case Ok(ms') => Ok(Modular(ms')))
    case Segmenting(s, seg) => Ok(Segmenting(s, seg.(train := val)))
  }

  /** The loop of `ModularEncoder.set_train`: stops at the first module that
      raises. */
  function SetTrainEachAsWritten<V>(ms: seq<Encoder<V>>, val: bool): (r: Result<seq<Encoder<V>>, Error>)
    ensures r.Ok? <==> forall i | 0 <= i < |ms| :: !HasIdentity(ms[i])
    ensures r.Ok? ==> |r.value| == |ms|
    ensures r.Err? ==> r.error == Unimplemented(SetTrainOp)
    decreases ms
  {
    if ms == [] then Ok([])
    else
      match SetTrainAsWritten(ms[0], val)
      case Err(err) => Err(err)
      case Ok(m) =>
        match SetTrainEachAsWritten(ms[1..], val)
        case Err(err) => Err(err)
        case Ok(rest) => Ok([m] + rest)
  }

  /** The code raises on a pipeline that starts with an identity encoder,
      whatever follows it. */
  lemma IdentityBlocksSetTrain<V>(next: Encoder<V>, val: bool)
    ensures SetTrainAsWritten<V>(Identity, val) == Err(Unimplemented(SetTrainOp))
    ensures SetTrainAsWritten(Modular([Identity, next]), val) == Err(Unimplemented(SetTrainOp))
  {
    assert HasIdentity(Modular([Identity, next])) by {
      assert HasIdentity([Identity, next][0]);
    }
  }

  /** On trees without an identity encoder the code and `SetTrain` agree. */
  lemma {:induction false} SetTrainAgrees<V>(e: Encoder<V>, val: bool)
    requires !HasIdentity(e)
    ensures SetTrainAsWritten(e, val) == Ok(SetTrain(e, val))
    decreases e
  {
    match e
    case Identity =>
    case Leaf(_, _, _) =>
    case Segmenting(_, _) =>
    case Modular(ms) =>
      SetTrainEachAgrees(ms, val);
  }

  lemma {:induction false} SetTrainEachAgrees<V>(ms: seq<Encoder<V>>, val: bool)
    requires forall i | 0 <= i < |ms| :: !HasIdentity(ms[i])
    ensures SetTrainEachAsWritten(ms, val) == Ok(SetTrainEach(ms, val))
    decreases ms
  {
    if ms != [] {
      SetTrainAgrees(ms[0], val);
      SetTrainEachAgrees(ms[1..], val);
      var rest := SetTrainEach(ms[1..], val);
      var all := SetTrainEach(ms, val);
      assert [SetTrain(ms[0], val)] + rest == all by {
        forall i | 0 <= i < |ms|
          ensures ([SetTrain(ms[0], val)] + rest)[i] == all[i]
        {
          if i > 0 {
            assert ms[1..][i - 1] == ms[i];
          }
        }
      }
    }
  }

  /** `calc_reinforce_loss`: the base encoder contributes nothing (`None`);
      only the segmenting encoder overrides it, forwarding the reward and its
      current weight to its builder.  The modular encoder does not override
      it, so it contributes nothing either, whatever its modules are. */
  function CalcReinforceLoss<V>(e: Encoder<V>, reward: V): (r: Option<V>)
    ensures r.Some? <==> e.Segmenting?
    ensures e.Segmenting? ==> r.value == e.seg.reinforceLoss(reward, e.state.lmbdVal)
  {
    match e
    case Segmenting(s, seg) => Some(seg.reinforceLoss(reward, s.lmbdVal))
    case _ => None
  }

  /** After `n` epochs the segmenting encoder weighs its reinforcement loss
      with the schedule evaluated at `n` (with `start` before the first). */
  lemma ReinforceLossAfterEpochs<V>(lmbd: Curriculum.Schedule, seg: SegmentingBuilder<V>, n: nat, reward: V)
    ensures CalcReinforceLoss(Segmenting(Curriculum.Epochs(Curriculum.Fresh(lmbd), n), seg), reward)
         == Some(seg.reinforceLoss(reward, if n == 0 then lmbd.start else Curriculum.Weight(lmbd, n)))
  {
    Curriculum.EpochsFromFresh(lmbd, n);
  }
}
