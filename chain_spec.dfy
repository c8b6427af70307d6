/** The network as a value: the state of each layer, and what one forward pass,
    one backpropagation pass and one commit of the pending updates do to the
    whole chain. The classes in module Layers are proved against these. */
module ChainSpec {
  import opened LinAlg

  /** An activation function; the network's is the logistic function
      1 / (1 + e^-x). */
  type Activation = real -> real

  /** `act` squashes every real into the open interval (0, 1), as the logistic
      function does; the model fixes only this range of it. */
  ghost predicate Squashes(act: Activation) {
    forall x :: 0.0 < act(x) < 1.0
  }

  /** The activation applied element-wise. */
  function Activate(act: Activation, v: Vector): (r: Vector)
    ensures |r| == |v|
    ensures forall j :: 0 <= j < |v| ==> r[j] == act(v[j])
  {
    seq(|v|, j requires 0 <= j < |v| => act(v[j]))
  }

  /** Everything one layer holds: its weights (last column multiplies the bias
      slot), the pending update, the cached node values and input of the latest
      forward pass (`inputs == []` before the first one), and its learning rate
      and weight-decay rate. */
  datatype LayerState = LayerState(
    weights: Matrix, update: Matrix, nodeVals: Vector, inputs: Vector,
    alpha: real, lambda: real)
  {
    /** Number of nodes, the row count. */
    function Rows(): nat { |weights| }

    /** Column count: the number of inputs plus one for the bias slot. */
    function ColCount(): nat { if |weights| == 0 then 0 else |weights[0]| }
  }

  ghost predicate Shaped(L: LayerState) {
    L.Rows() >= 1 && L.ColCount() >= 1 &&
    IsMatrix(L.weights, L.Rows(), L.ColCount()) &&
    IsMatrix(L.update, L.Rows(), L.ColCount()) &&
    |L.nodeVals| == L.Rows()
  }

  /** A forward pass has cached an input with one entry per column. */
  ghost predicate Primed(L: LayerState) {
    Shaped(L) && |L.inputs| == L.ColCount()
  }

  /** Layers shape-compatible end to end: each layer has one column per node of
      the layer before it, plus the bias column. */
  ghost predicate ChainShaped(S: seq<LayerState>) {
    (forall m :: 0 <= m < |S| ==> Shaped(S[m])) &&
    (forall a, b :: 0 <= a < b < |S| && b == a + 1 ==> S[b].ColCount() == S[a].Rows() + 1)
  }

  /** The two chains have the same length and the same layer shapes. */
  ghost predicate SameShape(S: seq<LayerState>, T: seq<LayerState>) {
    |S| == |T| &&
    forall m :: 0 <= m < |S| ==> S[m].Rows() == T[m].Rows() && S[m].ColCount() == T[m].ColCount()
  }

  /** The two layers agree on everything but the cached forward-pass values. */
  ghost predicate SameParams(a: LayerState, b: LayerState) {
    a.weights == b.weights && a.update == b.update && a.alpha == b.alpha && a.lambda == b.lambda
  }

  /** The two layers agree on everything but the pending update. */
  ghost predicate SameButUpdate(a: LayerState, b: LayerState) {
    a.weights == b.weights && a.nodeVals == b.nodeVals && a.inputs == b.inputs &&
    a.alpha == b.alpha && a.lambda == b.lambda
  }

  /** Replacing one layer by one of the same shape keeps the chain shape-compatible. */
  lemma ReplaceShaped(S: seq<LayerState>, k: nat, L: LayerState)
    requires ChainShaped(S) && k < |S| && Shaped(L)
    requires L.Rows() == S[k].Rows() && L.ColCount() == S[k].ColCount()
    ensures ChainShaped(S[k := L]) && SameShape(S[k := L], S)
  {
  }

  // ---------------------------------------------------------------- forward

  /** One layer's forward step on input `x`: copy `x` into a zero vector with one
      slot per column (the bias slot is left at 0), multiply by the weights and
      activate. */
  function LayerForward(act: Activation, L: LayerState, x: Vector): (r: LayerState)
    requires Shaped(L) && |x| <= L.ColCount()
    ensures Primed(r) && SameParams(r, L)
  {
    var inp := Padded(x, L.ColCount());
    L.(inputs := inp, nodeVals := Activate(act, MatVec(L.weights, inp)))
  }

  /** The forward pass from layer `k` to the last layer of `S`, layer `k` taking
      input `x` and each later layer the node values of the one before it. */
  function ForwardFrom(act: Activation, S: seq<LayerState>, k: nat, x: Vector): (r: seq<LayerState>)
    requires ChainShaped(S) && k <= |S| && (k < |S| ==> |x| <= S[k].ColCount())
    ensures ChainShaped(r) && SameShape(r, S)
    ensures forall m :: 0 <= m < |S| ==> SameParams(r[m], S[m])
    ensures forall m :: 0 <= m < k ==> r[m] == S[m]
    ensures forall m :: k <= m < |S| ==> Primed(r[m])
    decreases |S| - k
  {
    if k == |S| then S
    else
      var L := LayerForward(act, S[k], x);
      ReplaceShaped(S, k, L);
      ForwardFrom(act, S[k := L], k + 1, L.nodeVals)
  }

  /** A whole forward pass on input `x`. */
  function ForwardPass(act: Activation, S: seq<LayerState>, x: Vector): (r: seq<LayerState>)
    requires ChainShaped(S) && |S| > 0 && |x| <= S[0].ColCount()
    ensures ChainShaped(r) && SameShape(r, S) && PrimedBelow(r, |S|)
    ensures forall m :: 0 <= m < |S| ==> SameParams(r[m], S[m])
  {
    ForwardFrom(act, S, 0, x)
  }

  /** What a forward pass returns: the output layer's node values. */
  function Output(S: seq<LayerState>): Vector
    requires |S| > 0
  {
    S[|S| - 1].nodeVals
  }

  // ------------------------------------------------------ backpropagation

  /** Error signal of the output layer against target `t`:
      (y_j - t_j) * y_j * (1 - y_j). */
  function OutputDelta(y: Vector, t: Vector): (d: Vector)
    requires |t| >= |y|
    ensures |d| == |y|
  {
    seq(|y|, j requires 0 <= j < |y| => (y[j] - t[j]) * y[j] * (1.0 - y[j]))
  }

  /** Error signal of a hidden layer with node values `y`, from the signal `dDown`
      of the layer below and that layer's weights `wDown` (bias column unused). */
  function HiddenDelta(dDown: Vector, wDown: Matrix, y: Vector): (d: Vector)
    requires |dDown| == |wDown| && forall l :: 0 <= l < |wDown| ==> |wDown[l]| > |y|
    ensures |d| == |y|
  {
    seq(|y|, j requires 0 <= j < |y| => ColDot(dDown, wDown, j) * y[j] * (1.0 - y[j]))
  }

  /** The pending change of one weight: -alpha * (x_j * delta_i + lambda * w_ij),
      with `decay` standing for the weight-decay rate lambda. */
  function UpdateEntry(alpha: real, decay: real, x: real, d: real, w: real): real {
    -alpha * (x * d + decay * w)
  }

  /** The pending update of a whole layer for error signal `delta`. */
  function Gradient(L: LayerState, delta: Vector): (u: Matrix)
    requires Primed(L) && |delta| == L.Rows()
    ensures IsMatrix(u, L.Rows(), L.ColCount())
    ensures forall i, j :: 0 <= i < L.Rows() && 0 <= j < L.ColCount() ==>
      u[i][j] == UpdateEntry(L.alpha, L.lambda, L.inputs[j], delta[i], L.weights[i][j])
  {
    var n := L.ColCount();
    seq(L.Rows(), i requires 0 <= i < L.Rows() =>
      seq(n, j requires 0 <= j < n => UpdateEntry(L.alpha, L.lambda, L.inputs[j], delta[i], L.weights[i][j])))
  }

  /** Layer `L` with its pending update set for error signal `delta`. */
  function WithGradient(L: LayerState, delta: Vector): (r: LayerState)
    requires Primed(L) && |delta| == L.Rows()
    ensures Primed(r) && SameButUpdate(r, L)
  {
    L.(update := Gradient(L, delta))
  }

  /** Every layer below `n` has cached a forward-pass input. */
  ghost predicate PrimedBelow(S: seq<LayerState>, n: nat) {
    n <= |S| && forall m :: 0 <= m < n ==> Primed(S[m])
  }

  /** The hidden layers' part of a backpropagation pass over layers `n - 1`
      down to 0; `dDown` and `wDown` are the error signal and the weights of
      layer `n`. */
  function BackFrom(S: seq<LayerState>, n: nat, dDown: Vector, wDown: Matrix): (r: seq<LayerState>)
    requires ChainShaped(S) && PrimedBelow(S, n) && |dDown| == |wDown|
    requires n > 0 ==> forall l :: 0 <= l < |wDown| ==> |wDown[l]| == S[n - 1].Rows() + 1
    ensures ChainShaped(r) && SameShape(r, S) && PrimedBelow(r, n)
    ensures forall m :: 0 <= m < |S| ==> SameButUpdate(r[m], S[m])
    decreases n
  {
    if n == 0 then S
    else
      var delta := HiddenDelta(dDown, wDown, S[n - 1].nodeVals);
      var L := WithGradient(S[n - 1], delta);
      ReplaceShaped(S, n - 1, L);
      var r := BackFrom(S[n - 1 := L], n - 1, delta, S[n - 1].weights);
      ReplacedUpdate(S, n - 1, L, r);
      r
  }

  /** What holds of a chain against the chain with layer `k` replaced by a
      layer differing from it only in its pending update, and layer `k`
      primed, holds of it against the original chain too. */
  lemma ReplacedUpdate(S: seq<LayerState>, k: nat, L: LayerState, r: seq<LayerState>)
    requires k < |S| && Primed(L) && SameButUpdate(L, S[k])
    requires |r| == |S| && PrimedBelow(r, k) && Shaped(r[k])
    requires forall m :: 0 <= m < |S| ==> SameButUpdate(r[m], S[k := L][m])
    ensures SameShape(r, S) && PrimedBelow(r, k + 1)
    ensures forall m :: 0 <= m < |S| ==> SameButUpdate(r[m], S[m])
  {
    assert SameButUpdate(r[k], L);
  }

  /** A backpropagation pass started at layer `k` with target `t`: layer `k`
      takes the output-layer error signal, the layers above it the hidden one. */
  function TrainFrom(S: seq<LayerState>, k: nat, t: Vector): (r: seq<LayerState>)
    requires ChainShaped(S) && k < |S| && PrimedBelow(S, k + 1) && |t| >= S[k].Rows()
    ensures ChainShaped(r) && SameShape(r, S) && PrimedBelow(r, k + 1)
    ensures forall m :: 0 <= m < |S| ==> SameButUpdate(r[m], S[m])
  {
    var delta := OutputDelta(S[k].nodeVals, t);
    var L := WithGradient(S[k], delta);
    ReplaceShaped(S, k, L);
    BackFrom(S[k := L], k, delta, S[k].weights)
  }

  /** A whole backpropagation pass from the output layer with target `t`. */
  function TrainPass(S: seq<LayerState>, t: Vector): (r: seq<LayerState>)
    requires ChainShaped(S) && |S| > 0 && PrimedBelow(S, |S|) && |t| >= S[|S| - 1].Rows()
    ensures ChainShaped(r) && SameShape(r, S) && PrimedBelow(r, |S|)
    ensures forall m :: 0 <= m < |S| ==> SameButUpdate(r[m], S[m])
  {
    TrainFrom(S, |S| - 1, t)
  }

  // ---------------------------------------------------------------- commit

  /** Layer `L` with its pending update added to its weights. */
  function Committed(L: LayerState): (r: LayerState)
    requires Shaped(L)
    ensures Shaped(r) && r.Rows() == L.Rows() && r.ColCount() == L.ColCount()
  {
    L.(weights := AddM(L.weights, L.update))
  }

  /** Layers `n - 1` down to 0 add their pending updates to their weights. */
  function CommitBelow(S: seq<LayerState>, n: nat): (r: seq<LayerState>)
    requires ChainShaped(S) && n <= |S|
    ensures ChainShaped(r) && SameShape(r, S)
    decreases n
  {
    if n == 0 then S
    else
      ReplaceShaped(S, n - 1, Committed(S[n - 1]));
      CommitBelow(S[n - 1 := Committed(S[n - 1])], n - 1)
  }

  /** Every layer adds its pending update to its weights. */
  function Commit(S: seq<LayerState>): (r: seq<LayerState>)
    requires ChainShaped(S)
    ensures ChainShaped(r) && SameShape(r, S)
  {
    CommitBelow(S, |S|)
  }

  // ----------------------------------------------------------------- error

  /** Sum of the squared weights of layers `n - 1` down to 0. */
  function SquaredWeightsBelow(S: seq<LayerState>, n: nat): (s: real)
    requires n <= |S|
    ensures s >= 0.0
  {
    if n == 0 then 0.0 else FrobSq(S[n - 1].weights) + SquaredWeightsBelow(S, n - 1)
  }

  /** The error of layer `k` against `t`: half the squared distance of its node
      values from `t`, plus, when its lambda is non-zero, half lambda times the
      squared weights of layer `k` and every layer above it. */
  function LayerError(S: seq<LayerState>, k: nat, t: Vector): real
    requires k < |S| && |t| == |S[k].nodeVals|
  {
    var L := S[k];
    var diff := Sub(t, L.nodeVals);
    if L.lambda != 0.0 then 0.5 * Dot(diff, diff) + 0.5 * L.lambda * SquaredWeightsBelow(S, k + 1)
    else 0.5 * Dot(diff, diff)
  }
}
