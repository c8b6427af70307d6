/** Training and evaluating the whole network, as values: online training,
    repeated rounds, batch training and the (mean) error. What they amount to
    is proved in module TrainingFacts. */
module Training {
  import opened LinAlg
  import opened ChainSpec
  import opened ForwardFacts
  import opened Iteration

  /** `x` fits the first layer and `t` has a value for every output node. */
  ghost predicate Fits(S: seq<LayerState>, x: Vector, t: Vector) {
    ChainShaped(S) && |S| > 0 && |x| <= S[0].ColCount() && |t| >= S[|S| - 1].Rows()
  }

  /** A forward pass on `x` followed by a backpropagation pass against `t`:
      the pending updates are computed but not committed. */
  function Pass(act: Activation, S: seq<LayerState>, x: Vector, t: Vector): (r: seq<LayerState>)
    requires Fits(S, x, t)
    ensures SameShape(r, S) && Fits(r, x, t) && PrimedBelow(r, |r|)
  {
    TrainPass(ForwardPass(act, S, x), t)
  }

  /** One round of online training: a pass, then the commit of its updates. */
  function Step(act: Activation, S: seq<LayerState>, x: Vector, t: Vector): (r: seq<LayerState>)
    requires Fits(S, x, t)
    ensures SameShape(r, S) && Fits(r, x, t)
  {
    Commit(Pass(act, S, x, t))
  }

  // The three steps below as maps defined on every chain, so that they can be
  // repeated with Iteration; a chain that does not fit is left alone, which
  // no call of the classes ever meets.

  ghost function PassOn(act: Activation, x: Vector, t: Vector): seq<LayerState> -> seq<LayerState> {
    S => if Fits(S, x, t) then Pass(act, S, x, t) else S
  }

  ghost function StepOn(act: Activation, x: Vector, t: Vector): seq<LayerState> -> seq<LayerState> {
    S => if Fits(S, x, t) then Step(act, S, x, t) else S
  }

  ghost function CommitOn(): seq<LayerState> -> seq<LayerState> {
    S => if ChainShaped(S) then Commit(S) else S
  }

  /** `n` rounds of online training on one example; none when `n <= 0`. */
  ghost function Rounds(act: Activation, S: seq<LayerState>, x: Vector, t: Vector, n: int): seq<LayerState> {
    Iterate(StepOn(act, x, t), S, n)
  }

  /** `n` passes on one example with no commit in between; none when `n <= 0`. */
  ghost function Repeat(act: Activation, S: seq<LayerState>, x: Vector, t: Vector, n: int): seq<LayerState> {
    Iterate(PassOn(act, x, t), S, n)
  }

  /** The target of example `i`; batch training with no rounds never reads it,
      so the list of targets may be shorter then. */
  ghost function Target(ts: seq<Vector>, i: nat): Vector {
    if i < |ts| then ts[i] else []
  }

  /** Batch training on example `i`: `rounds` passes, then one commit. */
  ghost function BatchOn(act: Activation, xs: seq<Vector>, ts: seq<Vector>, rounds: int): (nat, seq<LayerState>) -> seq<LayerState> {
    (i: nat, S: seq<LayerState>) => if i < |xs| then CommitOn()(Repeat(act, S, xs[i], Target(ts, i), rounds)) else S
  }

  /** Batch training over the first `n` examples, in order. */
  ghost function BatchUpTo(act: Activation, S: seq<LayerState>, xs: seq<Vector>, ts: seq<Vector>, rounds: int, n: nat): seq<LayerState> {
    Sweep(BatchOn(act, xs, ts, rounds), S, n)
  }

  /** Online training on example `i`: one round. */
  ghost function OnlineOn(act: Activation, xs: seq<Vector>, ts: seq<Vector>): (nat, seq<LayerState>) -> seq<LayerState> {
    (i: nat, S: seq<LayerState>) => if i < |xs| then StepOn(act, xs[i], Target(ts, i))(S) else S
  }

  /** One round of online training on each of the first `n` examples, in order. */
  ghost function OnlineUpTo(act: Activation, S: seq<LayerState>, xs: seq<Vector>, ts: seq<Vector>, n: nat): seq<LayerState> {
    Sweep(OnlineOn(act, xs, ts), S, n)
  }

  /** Every example fits the first layer and has a value for every output node. */
  ghost predicate BatchFits(S: seq<LayerState>, xs: seq<Vector>, ts: seq<Vector>) {
    ChainShaped(S) && |S| > 0 && |ts| >= |xs| &&
    forall q :: 0 <= q < |xs| ==> |xs[q]| <= S[0].ColCount() && |ts[q]| >= S[|S| - 1].Rows()
  }

  /** The error of the network on example `x` with target `t`: the output
      layer's error after a forward pass on `x`. */
  function NetError(act: Activation, S: seq<LayerState>, x: Vector, t: Vector): real
    requires ChainShaped(S) && |S| > 0 && |x| <= S[0].ColCount() && |t| == S[|S| - 1].Rows()
  {
    ForwardFromLayers(act, S, 0, x);
    LayerError(ForwardPass(act, S, x), |S| - 1, t)
  }

  /** Every example fits and its target has exactly one value per output node. */
  ghost predicate ErrorFits(S: seq<LayerState>, xs: seq<Vector>, ts: seq<Vector>) {
    ChainShaped(S) && |S| > 0 && |ts| >= |xs| &&
    forall q :: 0 <= q < |xs| ==> |xs[q]| <= S[0].ColCount() && |ts[q]| == S[|S| - 1].Rows()
  }

  /** Sum of the errors on the first `n` examples, each from the same weights;
      defined as 0 where the examples do not fit, which no call of the classes
      ever meets. */
  ghost function ErrorSum(act: Activation, S: seq<LayerState>, xs: seq<Vector>, ts: seq<Vector>, n: nat): real {
    if n == 0 || n > |xs| || !ErrorFits(S, xs, ts) then 0.0
    else ErrorSum(act, S, xs, ts, n - 1) + NetError(act, S, xs[n - 1], ts[n - 1])
  }

  /** Mean error over a non-empty batch. */
  ghost function MeanError(act: Activation, S: seq<LayerState>, xs: seq<Vector>, ts: seq<Vector>): real
    requires ErrorFits(S, xs, ts) && |xs| > 0
  {
    ErrorSum(act, S, xs, ts, |xs|) / (|xs| as real)
  }
}
