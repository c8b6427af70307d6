/** What a backpropagation pass and a commit compute, layer by layer. */
module BackpropFacts {
  import opened LinAlg
  import opened ChainSpec

  /** The error signal of layer `m` against target `t`, defined from the output
      layer down: the output layer's is (y - t) * y * (1 - y); a hidden layer's
      is the signal of the layer after it pushed back through that layer's
      weights, times y * (1 - y). */
  function Signal(S: seq<LayerState>, t: Vector, m: nat): (d: Vector)
    requires ChainShaped(S) && m < |S| && |t| >= S[|S| - 1].Rows()
    ensures |d| == S[m].Rows()
    decreases |S| - m
  {
    if m == |S| - 1 then OutputDelta(S[m].nodeVals, t)
    else HiddenDelta(Signal(S, t, m + 1), S[m + 1].weights, S[m].nodeVals)
  }

  /** The hidden layers' part of a pass: every layer below `n` gets the gradient
      of its own `Signal`, and layers from `n` on are left as they are. */
  lemma {:induction false} BackFromLayers(S0: seq<LayerState>, t: Vector, S: seq<LayerState>, n: nat, d: Vector, w: Matrix)
    requires ChainShaped(S0) && n < |S0| && |t| >= S0[|S0| - 1].Rows()
    requires ChainShaped(S) && |S| == |S0| && PrimedBelow(S, n)
    requires forall m :: 0 <= m < n ==> S[m] == S0[m]
    requires d == Signal(S0, t, n) && w == S0[n].weights
    requires |d| == |w| && (n > 0 ==> forall l :: 0 <= l < |w| ==> |w[l]| == S[n - 1].Rows() + 1)
    ensures forall m :: 0 <= m < n ==> BackFrom(S, n, d, w)[m] == WithGradient(S0[m], Signal(S0, t, m))
    ensures forall m :: n <= m < |S| ==> BackFrom(S, n, d, w)[m] == S[m]
    decreases n
  {
    if n > 0 {
      var dn := HiddenDelta(d, w, S[n - 1].nodeVals);
      assert dn == Signal(S0, t, n - 1);
      var L := WithGradient(S[n - 1], dn);
      ReplaceShaped(S, n - 1, L);
      BackFromLayers(S0, t, S[n - 1 := L], n - 1, dn, S[n - 1].weights);
    }
  }

  /** The hidden recursion only moves upstream: layers `n` and above come out
      of it as they went in. */
  lemma {:induction false} BackFromKeepsRest(S: seq<LayerState>, n: nat, d: Vector, w: Matrix)
    requires ChainShaped(S) && PrimedBelow(S, n) && |d| == |w|
    requires n > 0 ==> forall l :: 0 <= l < |w| ==> |w[l]| == S[n - 1].Rows() + 1
    ensures forall m :: n <= m < |S| ==> BackFrom(S, n, d, w)[m] == S[m]
    decreases n
  {
    if n > 0 {
      var dn := HiddenDelta(d, w, S[n - 1].nodeVals);
      var L := WithGradient(S[n - 1], dn);
      ReplaceShaped(S, n - 1, L);
      BackFromKeepsRest(S[n - 1 := L], n - 1, dn, S[n - 1].weights);
    }
  }

  /** A pass started at layer `k` leaves the layers after `k` as they were. */
  lemma TrainFromKeepsRest(S: seq<LayerState>, k: nat, t: Vector)
    requires ChainShaped(S) && k < |S| && PrimedBelow(S, k + 1) && |t| >= S[k].Rows()
    ensures forall m :: k < m < |S| ==> TrainFrom(S, k, t)[m] == S[m]
  {
    var delta := OutputDelta(S[k].nodeVals, t);
    var L := WithGradient(S[k], delta);
    ReplaceShaped(S, k, L);
    BackFromKeepsRest(S[k := L], k, delta, S[k].weights);
  }

  /** A backpropagation pass leaves every layer as it was except for its pending
      update, which becomes the gradient of that layer's `Signal`. */
  lemma TrainPassLayers(S: seq<LayerState>, t: Vector)
    requires ChainShaped(S) && |S| > 0 && PrimedBelow(S, |S|) && |t| >= S[|S| - 1].Rows()
    ensures forall m :: 0 <= m < |S| ==> TrainPass(S, t)[m] == WithGradient(S[m], Signal(S, t, m))
  {
    var k := |S| - 1;
    var delta := OutputDelta(S[k].nodeVals, t);
    var L := WithGradient(S[k], delta);
    ReplaceShaped(S, k, L);
    BackFromLayers(S, t, S[k := L], k, delta, S[k].weights);
  }

  /** The signals read only node values and weights. */
  lemma {:induction false} SignalIgnoresUpdates(S: seq<LayerState>, T: seq<LayerState>, t: Vector, m: nat)
    requires ChainShaped(S) && ChainShaped(T) && |S| == |T| && m < |S|
    requires forall l :: 0 <= l < |S| ==> SameButUpdate(S[l], T[l])
    requires |t| >= S[|S| - 1].Rows() && |t| >= T[|T| - 1].Rows()
    ensures Signal(S, t, m) == Signal(T, t, m)
    decreases |S| - m
  {
    if m < |S| - 1 {
      SignalIgnoresUpdates(S, T, t, m + 1);
    }
  }

  /** Setting a gradient overwrites the whole pending update. */
  lemma GradientOverwrites(L: LayerState, M: LayerState, delta: Vector)
    requires Primed(L) && Primed(M) && SameButUpdate(L, M) && |delta| == L.Rows()
    ensures WithGradient(L, delta) == WithGradient(M, delta)
  {
    var g, h := Gradient(L, delta), Gradient(M, delta);
    forall i | 0 <= i < L.Rows()
      ensures g[i] == h[i]
    {
    }
    assert g == h;
  }

  /** What a backpropagation pass stores depends neither on the pending updates
      it finds nor on anything but the weights and the latest forward pass. */
  lemma TrainIgnoresUpdates(S: seq<LayerState>, T: seq<LayerState>, t: Vector)
    requires ChainShaped(S) && ChainShaped(T) && |S| == |T| > 0
    requires PrimedBelow(S, |S|) && PrimedBelow(T, |T|)
    requires forall m :: 0 <= m < |S| ==> SameButUpdate(S[m], T[m])
    requires |t| >= S[|S| - 1].Rows() && |t| >= T[|T| - 1].Rows()
    ensures TrainPass(S, t) == TrainPass(T, t)
  {
    TrainPassLayers(S, t);
    TrainPassLayers(T, t);
    forall m | 0 <= m < |S|
      ensures TrainPass(S, t)[m] == TrainPass(T, t)[m]
    {
      SignalIgnoresUpdates(S, T, t, m);
      GradientOverwrites(S[m], T[m], Signal(S, t, m));
    }
  }

  /** Where the bias slot of a layer's input is 0, the pending update of its bias
      column is pure weight decay: -alpha * lambda * w, whatever the signal. */
  lemma GradientBiasIsDecay(L: LayerState, delta: Vector, i: nat)
    requires Primed(L) && |delta| == L.Rows() && i < L.Rows() && L.inputs[L.ColCount() - 1] == 0.0
    ensures WithGradient(L, delta).update[i][L.ColCount() - 1] == -L.alpha * L.lambda * L.weights[i][L.ColCount() - 1]
  {
    var j := L.ColCount() - 1;
    assert WithGradient(L, delta).update[i][j] == UpdateEntry(L.alpha, L.lambda, 0.0, delta[i], L.weights[i][j]);
    DecayOnly(L.alpha, L.lambda, delta[i], L.weights[i][j]);
  }

  /** With a zero input the signal drops out of a weight's pending change. */
  lemma DecayOnly(alpha: real, decay: real, d: real, w: real)
    ensures UpdateEntry(alpha, decay, 0.0, d, w) == -alpha * decay * w
  {
  }

  /** Committing layers `n - 1` down to 0 replaces each of them by its committed
      form and leaves the others alone. */
  lemma {:induction false} CommitBelowLayers(S: seq<LayerState>, n: nat)
    requires ChainShaped(S) && n <= |S|
    ensures forall m :: 0 <= m < n ==> CommitBelow(S, n)[m] == Committed(S[m])
    ensures forall m :: n <= m < |S| ==> CommitBelow(S, n)[m] == S[m]
    decreases n
  {
    if n > 0 {
      ReplaceShaped(S, n - 1, Committed(S[n - 1]));
      CommitBelowLayers(S[n - 1 := Committed(S[n - 1])], n - 1);
    }
  }

  /** A commit adds every pending update to its weights and keeps the pending
      updates and the caches as they were. */
  lemma CommitEntries(S: seq<LayerState>)
    requires ChainShaped(S)
    ensures forall m :: 0 <= m < |S| ==>
      Commit(S)[m].update == S[m].update && Commit(S)[m].nodeVals == S[m].nodeVals &&
      Commit(S)[m].inputs == S[m].inputs &&
      Commit(S)[m].alpha == S[m].alpha && Commit(S)[m].lambda == S[m].lambda
    ensures forall m, i, j :: 0 <= m < |S| && 0 <= i < S[m].Rows() && 0 <= j < S[m].ColCount() ==>
      Commit(S)[m].weights[i][j] == S[m].weights[i][j] + S[m].update[i][j]
  {
    CommitBelowLayers(S, |S|);
  }
}
