/** What a forward pass computes, layer by layer, and what it does not depend on. */
module ForwardFacts {
  import opened LinAlg
  import opened ChainSpec

  /** The two layers have the same weights and rates; caches and pending
      updates may differ. */
  ghost predicate SameWeights(a: LayerState, b: LayerState) {
    a.weights == b.weights && a.alpha == b.alpha && a.lambda == b.lambda
  }

  /** The two layers have the same shape and the same weights outside the
      bias column. */
  ghost predicate SameButBias(a: LayerState, b: LayerState)
    requires Shaped(a) && Shaped(b)
  {
    a.Rows() == b.Rows() && a.ColCount() == b.ColCount() &&
    forall i, j :: 0 <= i < a.Rows() && 0 <= j < a.ColCount() - 1 ==> a.weights[i][j] == b.weights[i][j]
  }

  /** A forward pass from layer `k` leaves the layers before `k` alone, feeds `x`
      to layer `k`, and feeds every later layer the node values the layer before it
      computed in the same pass. */
  lemma {:induction false} ForwardFromLayers(act: Activation, S: seq<LayerState>, k: nat, x: Vector)
    requires ChainShaped(S) && k < |S| && |x| <= S[k].ColCount()
    ensures ForwardFrom(act, S, k, x)[k] == LayerForward(act, S[k], x)
    ensures forall m :: k < m < |S| ==>
      ForwardFrom(act, S, k, x)[m] == LayerForward(act, S[m], ForwardFrom(act, S, k, x)[m - 1].nodeVals)
    decreases |S| - k
  {
    var L := LayerForward(act, S[k], x);
    ReplaceShaped(S, k, L);
    if k + 1 < |S| {
      ForwardFromLayers(act, S[k := L], k + 1, L.nodeVals);
    }
  }

  /** The output of a forward pass has one value per output node, each strictly
      between 0 and 1. */
  lemma ForwardOutputRange(act: Activation, S: seq<LayerState>, x: Vector)
    requires Squashes(act) && ChainShaped(S) && |S| > 0 && |x| <= S[0].ColCount()
    ensures |Output(ForwardPass(act, S, x))| == S[|S| - 1].Rows()
    ensures forall j :: 0 <= j < S[|S| - 1].Rows() ==> 0.0 < Output(ForwardPass(act, S, x))[j] < 1.0
  {
    var r := ForwardPass(act, S, x);
    var last := |S| - 1;
    ForwardFromLayers(act, S, 0, x);
    if last == 0 {
      assert r[last] == LayerForward(act, S[0], x);
    } else {
      assert r[last] == LayerForward(act, S[last], r[last - 1].nodeVals);
    }
  }

  /** The bias slot is never set to 1: every layer after the first sees the node
      values of the layer before it followed by a 0, and the first layer sees 0
      there unless its input itself is long enough to fill the slot. */
  lemma BiasSlotZero(act: Activation, S: seq<LayerState>, x: Vector)
    requires ChainShaped(S) && |S| > 0 && |x| <= S[0].ColCount()
    ensures forall m :: 0 < m < |S| ==>
      ForwardPass(act, S, x)[m].inputs == ForwardPass(act, S, x)[m - 1].nodeVals + [0.0]
    ensures |x| < S[0].ColCount() ==> ForwardPass(act, S, x)[0].inputs[S[0].ColCount() - 1] == 0.0
  {
    var r := ForwardPass(act, S, x);
    ForwardFromLayers(act, S, 0, x);
    forall m | 0 < m < |S|
      ensures r[m].inputs == r[m - 1].nodeVals + [0.0]
    {
      PaddedByOne(r[m - 1].nodeVals, S[m].ColCount());
    }
  }

  /** One layer's node values do not depend on its bias column while the bias
      slot of its input is 0. */
  lemma LayerIgnoresBias(act: Activation, L: LayerState, M: LayerState, x: Vector)
    requires Shaped(L) && Shaped(M) && SameButBias(L, M) && |x| < L.ColCount()
    ensures LayerForward(act, L, x).nodeVals == LayerForward(act, M, x).nodeVals
  {
    var n := L.ColCount();
    var p := Padded(x, n);
    var u := MatVec(L.weights, p);
    var v := MatVec(M.weights, p);
    forall i | 0 <= i < L.Rows()
      ensures u[i] == v[i]
    {
      var a, b := L.weights[i], M.weights[i];
      assert a[..n - 1] == b[..n - 1];
      assert p[n - 1] == 0.0;
      assert Dot(a, p) == Dot(a[..n - 1], p[..n - 1]) + a[n - 1] * p[n - 1];
      assert Dot(b, p) == Dot(b[..n - 1], p[..n - 1]) + b[n - 1] * p[n - 1];
    }
    assert u == v;
  }

  /** The output of a forward pass from layer `k` does not depend on any
      layer's bias column, as long as layer `k`'s input leaves its bias slot
      empty. */
  lemma {:induction false} ForwardFromIgnoresBias(act: Activation, S: seq<LayerState>, T: seq<LayerState>, k: nat, x: Vector)
    requires ChainShaped(S) && ChainShaped(T) && |S| == |T| && k < |S|
    requires forall m :: 0 <= m < |S| ==> SameButBias(S[m], T[m])
    requires |x| < S[k].ColCount() && |x| < T[k].ColCount()
    ensures Output(ForwardFrom(act, S, k, x)) == Output(ForwardFrom(act, T, k, x))
    decreases |S| - k
  {
    var L := LayerForward(act, S[k], x);
    var M := LayerForward(act, T[k], x);
    LayerIgnoresBias(act, S[k], T[k], x);
    ReplaceShaped(S, k, L);
    ReplaceShaped(T, k, M);
    if k + 1 < |S| {
      ForwardFromIgnoresBias(act, S[k := L], T[k := M], k + 1, L.nodeVals);
    }
  }

  /** The network's output does not depend on the bias weights: two networks
      that differ only in their bias columns answer alike, whenever the input
      is shorter than the first layer's columns. */
  lemma ForwardIgnoresBias(act: Activation, S: seq<LayerState>, T: seq<LayerState>, x: Vector)
    requires ChainShaped(S) && ChainShaped(T) && |S| == |T| > 0
    requires forall m :: 0 <= m < |S| ==> SameButBias(S[m], T[m])
    requires |x| < S[0].ColCount() && |x| < T[0].ColCount()
    ensures Output(ForwardPass(act, S, x)) == Output(ForwardPass(act, T, x))
  {
    ForwardFromIgnoresBias(act, S, T, 0, x);
  }

  /** A forward pass from layer `k` recomputes the caches of layer `k` onwards
      from the weights alone: what those layers cached before does not matter. */
  lemma {:induction false} ForwardFromIgnoresCaches(act: Activation, S: seq<LayerState>, T: seq<LayerState>, k: nat, x: Vector)
    requires ChainShaped(S) && ChainShaped(T) && |S| == |T| && k < |S|
    requires forall m :: 0 <= m < |S| ==> SameWeights(S[m], T[m])
    requires |x| <= S[k].ColCount() && |x| <= T[k].ColCount()
    ensures forall m :: k <= m < |S| ==> SameButUpdate(ForwardFrom(act, S, k, x)[m], ForwardFrom(act, T, k, x)[m])
    decreases |S| - k
  {
    var L := LayerForward(act, S[k], x);
    var M := LayerForward(act, T[k], x);
    ReplaceShaped(S, k, L);
    ReplaceShaped(T, k, M);
    if k + 1 < |S| {
      ForwardFromIgnoresCaches(act, S[k := L], T[k := M], k + 1, L.nodeVals);
    }
  }

  /** A whole forward pass overwrites every cache: two networks with the same
      weights, rates and pending updates end up in the same state. */
  lemma ForwardIgnoresCaches(act: Activation, S: seq<LayerState>, T: seq<LayerState>, x: Vector)
    requires ChainShaped(S) && ChainShaped(T) && |S| == |T| > 0
    requires forall m :: 0 <= m < |S| ==> SameParams(S[m], T[m])
    requires |x| <= S[0].ColCount() && |x| <= T[0].ColCount()
    ensures ForwardPass(act, S, x) == ForwardPass(act, T, x)
  {
    ForwardFromIgnoresCaches(act, S, T, 0, x);
  }
}
