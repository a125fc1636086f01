/** Delegate builders and the adapter that runs them (`BuilderEncoder`,
    xnmt/encoder.py:39-50).

    A delegate builder is a foreign object that does the numeric work.  It may
    offer a direct `transduce`, or an `initial_state()` whose own `transduce`
    does the work, or neither; the adapter probes for them in that order.  The
    computations themselves are left uninterpreted: each capability is an
    arbitrary function from input vectors to output vectors. */
module Delegates {
  import opened Wrappers

  /** The operations the base `Encoder` leaves unimplemented. */
  datatype Operation = TransduceOp | SetTrainOp

  /** The exceptions the encoder layer raises itself: `NotImplementedError`,
      for an operation no class along the way provides, and `NameError`, for
      a module name used without being imported. */
  datatype Error =
    | Unimplemented(op: Operation)
    | NameNotDefined(name: string)

  /** A foreign computation from input vectors to output vectors. */
  type Transducer<!V> = seq<V> -> seq<V>

  /** A delegate builder: which calling conventions it exposes, and the
      dropout probability it was last given through `set_dropout`. */
  datatype Delegate<!V> = Delegate(
    transduce: Option<Transducer<V>>,
    initialState: Option<Transducer<V>>,
    dropout: real)

  /** The builder has at least one convention the adapter can call. */
  predicate Callable<V>(d: Delegate<V>)
  {
    d.transduce.Some? || d.initialState.Some?
  }

  /** `BuilderEncoder.transduce`: run the delegate through the first
      convention it exposes, and wrap its output list as the encoded
      sequence. */
  function Adapt<V>(d: Delegate<V>, sent: seq<V>): (r: Result<seq<V>, Error>)
    ensures r.Ok? <==> Callable(d)
    ensures r.Err? ==> r.error == Unimplemented(TransduceOp)
    ensures d.transduce.Some? ==> r == Ok(d.transduce.value(sent))
    ensures d.transduce.None? && d.initialState.Some? ==> r == Ok(d.initialState.value(sent))
  {
    if d.transduce.Some? then Ok(d.transduce.value(sent))
    else if d.initialState.Some? then Ok(d.initialState.value(sent))
    else Err(Unimplemented(TransduceOp))
  }

  /** A direct `transduce` wins: whatever `initial_state` the builder also
      has is never consulted. */
  lemma DirectWins<V>(d: Delegate<V>, other: Option<Transducer<V>>, sent: seq<V>)
    requires d.transduce.Some?
    ensures Adapt(d.(initialState := other), sent) == Adapt(d, sent)
  {
  }

  /** The output is the same computation whichever convention carries it:
      the adapter is the one place where both conventions are normalised. */
  lemma ConventionIrrelevant<V>(f: Transducer<V>, p: real, q: real, sent: seq<V>)
    ensures Adapt(Delegate(Some(f), None, p), sent) == Adapt(Delegate(None, Some(f), q), sent)
    ensures Adapt(Delegate(Some(f), None, p), sent) == Ok(f(sent))
  {
  }
}
