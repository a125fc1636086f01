/** The curriculum schedule of the segmenting encoder (xnmt/encoder.py:154-182).

    The encoder keeps two fields, an epoch counter `ctr` and the current
    reinforcement-loss weight `lmbd_val`.  Construction sets the weight to the
    configured `start`; every `new_epoch` bumps the counter and recomputes the
    weight from the counter alone with an exponential formula that is clamped
    first from above (`min(., max)`) and then from below (`max(., min)`).
    All arithmetic is exact `real` arithmetic; the source uses floats. */
module Curriculum {

  /** The `lmbd` configuration dictionary: keys "start", "before", "min", "max". */
  datatype Schedule = Schedule(start: real, before: int, min: real, max: real)

  /** The schedule state of one segmenting encoder. */
  datatype SegState = SegState(lmbd: Schedule, ctr: nat, lmbdVal: real)

  /** 2 to the power k, for negative k too (Python's `2 ** k` on ints). */
  function Pow2(k: int): (r: real)
    ensures r > 0.0
    decreases if k >= 0 then k else -k
  {
    if k == 0 then 1.0
    else if k > 0 then 2.0 * Pow2(k - 1)
    else Pow2(k + 1) / 2.0
  }

  /** Python's two-argument `min`: the first argument unless the second is smaller. */
  function Min(a: real, b: real): real
  {
    if b < a then b else a
  }

  /** Python's two-argument `max`: the first argument unless the second is larger. */
  function Max(a: real, b: real): real
  {
    if b > a then b else a
  }

  /** The unclamped weight `1e-3 * (2 * (2 ** (ctr - before) - 1))`. */
  function Raw(lmbd: Schedule, ctr: int): real
  {
    0.001 * (2.0 * (Pow2(ctr - lmbd.before) - 1.0))
  }

  /** The weight `new_epoch` assigns once the counter has reached `ctr`. */
  function Weight(lmbd: Schedule, ctr: int): (w: real)
    ensures w >= lmbd.min
    ensures lmbd.min <= lmbd.max ==> w <= lmbd.max
    ensures lmbd.min <= Raw(lmbd, ctr) <= lmbd.max ==> w == Raw(lmbd, ctr)
    ensures lmbd.min <= lmbd.max && Raw(lmbd, ctr) >= lmbd.max ==> w == lmbd.max
    ensures Raw(lmbd, ctr) <= lmbd.min ==> w == lmbd.min
    ensures lmbd.min > lmbd.max ==> w == lmbd.min
  {
    Max(Min(Raw(lmbd, ctr), lmbd.max), lmbd.min)
  }

  /** A freshly constructed segmenting encoder. */
  function Fresh(lmbd: Schedule): (s: SegState)
    ensures s.ctr == 0 && s.lmbdVal == lmbd.start && s.lmbd == lmbd
    ensures Reachable(s)
  {
    SegState(lmbd, 0, lmbd.start)
  }

  /** `new_epoch`: one more epoch, weight recomputed from the new counter. */
  function NewEpoch(s: SegState): (s': SegState)
    ensures s'.ctr == s.ctr + 1
    ensures s'.lmbd == s.lmbd
    ensures Reachable(s')
    ensures s'.lmbdVal >= s.lmbd.min
    ensures s.lmbd.min <= s.lmbd.max ==> s'.lmbdVal <= s.lmbd.max
  {
    var ctr := s.ctr + 1;
    SegState(s.lmbd, ctr, Weight(s.lmbd, ctr))
  }

  /** `n` successive calls of `new_epoch`. */
  function Epochs(s: SegState, n: nat): SegState
    decreases n
  {
    if n == 0 then s else Epochs(NewEpoch(s), n - 1)
  }

  /** The states a segmenting encoder can be in: fresh, or with the weight the
      formula gives for its counter. */
  predicate Reachable(s: SegState)
  {
    s.lmbdVal == (if s.ctr == 0 then s.lmbd.start else Weight(s.lmbd, s.ctr))
  }

  lemma Pow2Succ(k: int)
    ensures Pow2(k + 1) == 2.0 * Pow2(k)
  {
  }

  lemma {:induction false} Pow2Increasing(i: int, j: int)
    requires i < j
    ensures Pow2(i) < Pow2(j)
    decreases j - i
  {
    Pow2Succ(j - 1);
    if i < j - 1 {
      Pow2Increasing(i, j - 1);
    }
  }

  /** Below the exponent 0 the power is under one, from 0 on it is at least one. */
  lemma Pow2VersusOne(k: int)
    ensures k < 0 <==> Pow2(k) < 1.0
  {
    if k < 0 {
      Pow2Increasing(k, 0);
    } else if k > 0 {
      Pow2Increasing(0, k);
    }
  }

  /** The power outgrows the exponent: `2^k >= k + 1` for k >= 0. */
  lemma {:induction false} Pow2AtLeastSucc(k: nat)
    ensures Pow2(k) >= k as real + 1.0
  {
    if k > 0 {
      Pow2AtLeastSucc(k - 1);
    }
  }

  /** The unclamped formula is strictly increasing in the counter. */
  lemma RawIncreasing(lmbd: Schedule, c1: int, c2: int)
    requires c1 < c2
    ensures Raw(lmbd, c1) < Raw(lmbd, c2)
  {
    Pow2Increasing(c1 - lmbd.before, c2 - lmbd.before);
  }

  /** The clamped weight never decreases as the counter grows, whatever the
      bounds, because both clamps are monotone. */
  lemma WeightMonotone(lmbd: Schedule, c1: int, c2: int)
    requires c1 <= c2
    ensures Weight(lmbd, c1) <= Weight(lmbd, c2)
  {
    if c1 < c2 {
      RawIncreasing(lmbd, c1, c2);
    }
  }

  /** Before `before` the formula is negative, so with a non-negative lower
      bound the weight is `min` there, not `start`: the code has no warm-up
      phase that holds the initial weight. */
  lemma BeforeWarmupWeightIsMin(lmbd: Schedule, ctr: int)
    requires ctr < lmbd.before
    ensures Raw(lmbd, ctr) < 0.0
    ensures lmbd.min >= 0.0 ==> Weight(lmbd, ctr) == lmbd.min
  {
    Pow2VersusOne(ctr - lmbd.before);
  }

  /** Once the weight has reached `max` it stays there. */
  lemma Saturated(lmbd: Schedule, c1: int, c2: int)
    requires lmbd.min <= lmbd.max
    requires Weight(lmbd, c1) == lmbd.max
    requires c1 <= c2
    ensures Weight(lmbd, c2) == lmbd.max
  {
    WeightMonotone(lmbd, c1, c2);
  }

  /** With consistent bounds the weight reaches `max` in finitely many epochs:
      at the latest when `0.002 * (ctr - before)` has reached it. */
  lemma EventuallySaturates(lmbd: Schedule, ctr: int)
    requires lmbd.min <= lmbd.max
    requires ctr >= lmbd.before
    requires 0.002 * (ctr - lmbd.before) as real >= lmbd.max
    ensures Weight(lmbd, ctr) == lmbd.max
  {
    Pow2AtLeastSucc(ctr - lmbd.before);
  }

  /** `n` epochs advance the counter by `n`, keep the configuration, and
      (when n > 0) leave the weight the formula gives for the final counter,
      whatever weight the state held before. */
  lemma {:induction false} EpochsRecompute(s: SegState, n: nat)
    ensures Epochs(s, n).ctr == s.ctr + n
    ensures Epochs(s, n).lmbd == s.lmbd
    ensures n > 0 ==> Epochs(s, n).lmbdVal == Weight(s.lmbd, s.ctr + n)
    decreases n
  {
    if n > 0 {
      EpochsRecompute(NewEpoch(s), n - 1);
    }
  }

  /** Advancing `n` epochs from a fresh encoder gives the same weight as
      evaluating the schedule once at counter `n`. */
  lemma EpochsFromFresh(lmbd: Schedule, n: nat)
    ensures Epochs(Fresh(lmbd), n).ctr == n
    ensures Epochs(Fresh(lmbd), n).lmbdVal == (if n == 0 then lmbd.start else Weight(lmbd, n))
  {
    EpochsRecompute(Fresh(lmbd), n);
  }

  /** The new weight does not depend on the previous weight. */
  lemma NewEpochForgetsWeight(s: SegState, other: real)
    ensures NewEpoch(s.(lmbdVal := other)) == NewEpoch(s)
  {
  }

  /** Every state produced from a fresh encoder by `new_epoch` calls is reachable. */
  lemma {:induction false} EpochsReachable(s: SegState, n: nat)
    requires Reachable(s)
    ensures Reachable(Epochs(s, n))
    decreases n
  {
    if n > 0 {
      EpochsReachable(NewEpoch(s), n - 1);
    }
  }

  /** From the first epoch on, `new_epoch` never lowers the weight.  (The very
      first call can: it replaces `start` by the formula's value.) */
  lemma NewEpochNonDecreasing(s: SegState)
    requires Reachable(s) && s.ctr >= 1
    ensures NewEpoch(s).lmbdVal >= s.lmbdVal
  {
    WeightMonotone(s.lmbd, s.ctr, s.ctr + 1);
  }

  /** The first epoch may lower the weight below `start`. */
  lemma FirstEpochCanDropStart()
    ensures NewEpoch(Fresh(Schedule(0.5, 5, 0.0, 1.0))).lmbdVal == 0.0
  {
    BeforeWarmupWeightIsMin(Schedule(0.5, 5, 0.0, 1.0), 1);
  }

  /** A sample schedule, `{start: 0, before: 5, min: 0, max: 1}`. */
  lemma ExampleSchedule()
    ensures Weight(Schedule(0.0, 5, 0.0, 1.0), 4) == 0.0
    ensures Weight(Schedule(0.0, 5, 0.0, 1.0), 6) == 0.002
    ensures Weight(Schedule(0.0, 5, 0.0, 1.0), 10) == 0.062
    ensures Weight(Schedule(0.0, 5, 0.0, 1.0), 13) == 0.51
    ensures forall c :: c >= 14 ==> Weight(Schedule(0.0, 5, 0.0, 1.0), c) == 1.0
  {
    var l := Schedule(0.0, 5, 0.0, 1.0);
    BeforeWarmupWeightIsMin(l, 4);
    assert Pow2(1) == 2.0;
    assert Pow2(5) == 32.0 by {
      assert Pow2(2) == 4.0;
      assert Pow2(3) == 8.0;
      assert Pow2(4) == 16.0;
    }
    assert Pow2(8) == 256.0 by {
      assert Pow2(6) == 64.0;
      assert Pow2(7) == 128.0;
    }
    assert Pow2(9) == 512.0;
    forall c | c >= 14
      ensures Weight(l, c) == 1.0
    {
      Saturated(l, 14, c);
    }
  }
}
