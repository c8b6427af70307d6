/** One layer of the network as a heap object, and the chain of layers linked
    through their `upstream` and `downstream` references. Forward propagation
    recurses downstream along the links; training, backpropagation, committing
    the updates and summing the squared weights recurse upstream. */
module Layers {
  import opened LinAlg
  import opened ChainSpec

  /** Layer `m` of a new network: `size` nodes over `inputSize` inputs and
      the bias slot, weights drawn by `draw(m, _, _)`, nothing pending, zero
      node values, no cached input, and the fixed learning and decay rates. */
  function Initial(inputSize: nat, size: nat, draw: (nat, nat, nat) -> real, m: nat): (L: LayerState)
    ensures L.Rows() == size && (size >= 1 ==> Shaped(L) && L.ColCount() == inputSize + 1)
    ensures forall i, j :: 0 <= i < size && 0 <= j <= inputSize ==> L.weights[i][j] == draw(m, i, j)
    ensures forall i, j :: 0 <= i < size && 0 <= j <= inputSize ==> L.update[i][j] == 0.0
    ensures L.nodeVals == Zeros(size) && L.inputs == []
    ensures L.alpha == 0.001 && L.lambda == 0.0
  {
    LayerState(Build(size, inputSize + 1, (i: nat, j: nat) => draw(m, i, j)),
               ZeroMatrix(size, inputSize + 1), Zeros(size), [], 0.001, 0.0)
  }

  /** Every layer of `chain` is distinct and linked to its neighbours: the first
      has no upstream layer, the last no downstream layer. */
  ghost predicate Linked(chain: seq<Layer>)
    reads chain`upstream, chain`downstream
  {
    |chain| > 0 &&
    (forall a, b :: 0 <= a < b < |chain| ==> chain[a] != chain[b]) &&
    chain[0].upstream == null && chain[|chain| - 1].downstream == null &&
    (forall m {:trigger chain[m].downstream} :: 0 <= m < |chain| - 1 ==> chain[m].downstream == chain[m + 1]) &&
    (forall m {:trigger chain[m].upstream} :: 0 < m < |chain| ==> chain[m].upstream == chain[m - 1])
  }

  /** The state of every layer of `chain`, in chain order. */
  ghost function StateOf(chain: seq<Layer>): (S: seq<LayerState>)
    reads chain
    ensures |S| == |chain| && forall m :: 0 <= m < |chain| ==> S[m] == chain[m].Snapshot()
  {
    seq(|chain|, m requires 0 <= m < |chain| reads chain => chain[m].Snapshot())
  }

  /** A linked, shape-compatible chain. */
  ghost predicate ChainValid(chain: seq<Layer>)
    reads chain
  {
    Linked(chain) && ChainShaped(StateOf(chain))
  }

  /** After a change confined to the fields of layer `k` other than its links,
      whose new state has the old shape, the chain is still valid and its state
      is the old one with entry `k` replaced. */
  lemma Reframe(chain: seq<Layer>, k: nat, S: seq<LayerState>)
    requires Linked(chain) && k < |chain| && ChainShaped(S) && |S| == |chain|
    requires forall m :: 0 <= m < |chain| && m != k ==> chain[m].Snapshot() == S[m]
    requires Shaped(chain[k].Snapshot())
    requires chain[k].Snapshot().Rows() == S[k].Rows() && chain[k].Snapshot().ColCount() == S[k].ColCount()
    ensures ChainValid(chain) && StateOf(chain) == S[k := chain[k].Snapshot()]
  {
    ReplaceShaped(S, k, chain[k].Snapshot());
  }

  class Layer {
    /** Learning rate. */
    const alpha: real
    /** Weight-decay rate; zero disables weight decay. */
    const lambda: real
    /** One row per node; the last column multiplies the bias slot of the input. */
    var weights: Matrix
    /** Pending change of `weights`, computed by training and applied by `UpdateWeights`. */
    var weightUpdate: Matrix
    /** Where the input comes from; null for the first layer. */
    var upstream: Layer?
    /** Who takes this layer's node values as input; null for the output layer. */
    var downstream: Layer?
    /** Node values of the latest forward pass. */
    var nodeVals: Vector
    /** Input (with bias slot) of the latest forward pass; empty before the first. */
    var inputs: Vector

    ghost function Snapshot(): LayerState
      reads this`weights, this`weightUpdate, this`nodeVals, this`inputs
    {
      LayerState(weights, weightUpdate, nodeVals, inputs, alpha, lambda)
    }

    /** A layer of `size` nodes taking `inputSize` inputs plus the bias, in
        position `m` of its network; weight (i, j) is the random draw
        `draw(m, i, j)`. */
    constructor (inputSize: nat, size: nat, draw: (nat, nat, nat) -> real, m: nat)
      ensures Snapshot() == Initial(inputSize, size, draw, m)
      ensures upstream == null && downstream == null
    {
      alpha := 0.001;
      lambda := 0.0;
      weights := Build(size, inputSize + 1, (i: nat, j: nat) => draw(m, i, j));
      weightUpdate := ZeroMatrix(size, inputSize + 1);
      nodeVals := Zeros(size);
      inputs := [];
      upstream := null;
      downstream := null;
    }

    function GetUpstream(): (l: Layer?)
      reads this
      ensures l == upstream
    {
      upstream
    }

    function GetDownstream(): (l: Layer?)
      reads this
      ensures l == downstream
    {
      downstream
    }

    method SetUpstream(l: Layer?)
      modifies this`upstream
      ensures upstream == l
    {
      upstream := l;
    }

    method SetDownstream(l: Layer?)
      modifies this`downstream
      ensures downstream == l
    {
      downstream := l;
    }

    /** Number of nodes in this layer. */
    function Size(): (n: nat)
      reads this
      requires Shaped(Snapshot())
      ensures n >= 1 && IsMatrix(weights, n, Snapshot().ColCount())
    {
      |weights|
    }

    /** Number of inputs this layer takes, not counting the bias slot. */
    function InputSize(): (n: nat)
      reads this
      requires Shaped(Snapshot())
      ensures IsMatrix(weights, Snapshot().Rows(), n + 1)
    {
      |weights[0]| - 1
    }

    /** This layer's own part of a forward pass: copy `input` into a zero vector
        with one slot per column, leaving the bias slot at 0, then cache it and
        the activated product of the weights with it. */
    method ForwardStep(act: Activation, input: Vector)
      requires Shaped(Snapshot()) && |input| <= Snapshot().ColCount()
      modifies this`nodeVals, this`inputs
      ensures Snapshot() == LayerForward(act, old(Snapshot()), input)
    {
      var inputWithBias := Padded(input, |weights[0]|);
      var prop := MatVec(weights, inputWithBias);
      nodeVals := Activate(act, prop);
      inputs := inputWithBias;
    }

    /** Propagates `input` through this layer and every layer downstream of it,
        caching each layer's input and node values; returns the output layer's
        node values. */
    method Forward(act: Activation, input: Vector, ghost chain: seq<Layer>, ghost k: nat) returns (out: Vector)
      requires ChainValid(chain) && k < |chain| && chain[k] == this
      requires |input| <= Snapshot().ColCount()
      modifies chain
      decreases |chain| - k
      ensures Linked(chain)
      ensures StateOf(chain) == ForwardFrom(act, old(StateOf(chain)), k, input)
      ensures out == Output(StateOf(chain))
    {
      ghost var S := StateOf(chain);
      ForwardStep(act, input);
      Reframe(chain, k, S);
      if downstream != null {
        out := downstream.Forward(act, nodeVals, chain, k + 1);
      } else {
        out := nodeVals;
      }
    }

    /** The output layer's error signal against `trainingData`, entry by entry. */
    method OutputSignal(trainingData: Vector) returns (delta: Vector)
      requires Shaped(Snapshot()) && |trainingData| >= |weights|
      ensures delta == OutputDelta(nodeVals, trainingData)
    {
      delta := Zeros(|weights|);
      var j := 0;
      while j < |weights|
        invariant 0 <= j <= |weights| && |delta| == |weights|
        invariant forall c :: 0 <= c < j ==> delta[c] == OutputDelta(nodeVals, trainingData)[c]
      {
        delta := delta[j := nodeVals[j] - trainingData[j]];
        delta := delta[j := delta[j] * nodeVals[j] * (1.0 - nodeVals[j])];
        j := j + 1;
      }
    }

    /** Fills the pending update for error signal `delta` entry by entry; the
        weight-decay term is left out when lambda is zero. */
    method StoreOutputUpdate(delta: Vector)
      requires Primed(Snapshot()) && |delta| == |weights|
      modifies this`weightUpdate
      ensures Snapshot() == WithGradient(old(Snapshot()), delta)
    {
      ghost var G := Gradient(Snapshot(), delta);
      var rows, cols := |weights|, |weights[0]|;
      var i := 0;
      while i < rows
        invariant 0 <= i <= rows && IsMatrix(weightUpdate, rows, cols)
        invariant forall r :: 0 <= r < i ==> weightUpdate[r] == G[r]
      {
        var j := 0;
        while j < cols
          invariant 0 <= j <= cols && IsMatrix(weightUpdate, rows, cols)
          invariant forall r :: 0 <= r < i ==> weightUpdate[r] == G[r]
          invariant forall c :: 0 <= c < j ==> weightUpdate[i][c] == G[i][c]
        {
          if lambda != 0.0 {
            weightUpdate := weightUpdate[i := weightUpdate[i][j := -alpha * (inputs[j] * delta[i] + lambda * weights[i][j])]];
          } else {
            weightUpdate := weightUpdate[i := weightUpdate[i][j := -alpha * inputs[j] * delta[i]]];
          }
          j := j + 1;
        }
        assert weightUpdate[i] == G[i];
        i := i + 1;
      }
      assert weightUpdate == G;
    }

    /** A hidden layer's error signal: the downstream signal pushed back through
        the downstream layer's weights (bias column unused), times the sigmoid
        derivative at this layer's node values. */
    method HiddenSignal(deltaDown: Vector) returns (delta: Vector)
      requires Shaped(Snapshot()) && downstream != null && Shaped(downstream.Snapshot())
      requires downstream.Snapshot().ColCount() == |weights| + 1 && |deltaDown| == |downstream.weights|
      ensures delta == HiddenDelta(deltaDown, downstream.weights, nodeVals)
    {
      var wDown := downstream.weights;
      delta := Zeros(|weights|);
      var j := 0;
      while j < |weights|
        invariant 0 <= j <= |weights| && |delta| == |weights|
        invariant forall c :: 0 <= c < j ==> delta[c] == HiddenDelta(deltaDown, wDown, nodeVals)[c]
        invariant forall c :: j <= c < |weights| ==> delta[c] == 0.0
      {
        var l := 0;
        assert deltaDown[..0] == [] && wDown[..0] == [];
        while l < |deltaDown|
          invariant 0 <= l <= |deltaDown| && |delta| == |weights|
          invariant forall c :: 0 <= c < j ==> delta[c] == HiddenDelta(deltaDown, wDown, nodeVals)[c]
          invariant forall c :: j < c < |weights| ==> delta[c] == 0.0
          invariant delta[j] == ColDot(deltaDown[..l], wDown[..l], j)
        {
          assert deltaDown[..l + 1][..l] == deltaDown[..l] && wDown[..l + 1][..l] == wDown[..l];
          delta := delta[j := delta[j] + deltaDown[l] * wDown[l][j]];
          l := l + 1;
        }
        assert deltaDown[..l] == deltaDown && wDown[..l] == wDown;
        delta := delta[j := delta[j] * nodeVals[j] * (1.0 - nodeVals[j])];
        j := j + 1;
      }
    }

    /** Fills the pending update for error signal `delta` entry by entry, always
        with the weight-decay term. */
    method StoreHiddenUpdate(delta: Vector)
      requires Primed(Snapshot()) && |delta| == |weights|
      modifies this`weightUpdate
      ensures Snapshot() == WithGradient(old(Snapshot()), delta)
    {
      ghost var G := Gradient(Snapshot(), delta);
      var rows, cols := |weights|, |weights[0]|;
      var i := 0;
      while i < rows
        invariant 0 <= i <= rows && IsMatrix(weightUpdate, rows, cols)
        invariant forall r :: 0 <= r < i ==> weightUpdate[r] == G[r]
      {
        var j := 0;
        while j < cols
          invariant 0 <= j <= cols && IsMatrix(weightUpdate, rows, cols)
          invariant forall r :: 0 <= r < i ==> weightUpdate[r] == G[r]
          invariant forall c :: 0 <= c < j ==> weightUpdate[i][c] == G[i][c]
        {
          weightUpdate := weightUpdate[i := weightUpdate[i][j := -alpha * (inputs[j] * delta[i] + lambda * weights[i][j])]];
          j := j + 1;
        }
        assert weightUpdate[i] == G[i];
        i := i + 1;
      }
      assert weightUpdate == G;
    }

    /** Backpropagation started at this layer, taken to be the output layer:
        stores this layer's and every upstream layer's pending update and
        changes nothing else. */
    method Train(trainingData: Vector, ghost chain: seq<Layer>, ghost k: nat)
      requires ChainValid(chain) && k < |chain| && chain[k] == this
      requires PrimedBelow(StateOf(chain), k + 1) && |trainingData| >= |weights|
      modifies chain
      ensures Linked(chain)
      ensures StateOf(chain) == TrainFrom(old(StateOf(chain)), k, trainingData)
    {
      ghost var S := StateOf(chain);
      var delta := OutputSignal(trainingData);
      StoreOutputUpdate(delta);
      Reframe(chain, k, S);
      if upstream != null {
        upstream.Backprop(delta, chain, k - 1);
      }
    }

    /** Backpropagation at a hidden layer, from the error signal `deltaDown` of
        the downstream layer: stores this layer's and every upstream layer's
        pending update and changes nothing else. */
    method Backprop(deltaDown: Vector, ghost chain: seq<Layer>, ghost k: nat)
      requires ChainValid(chain) && k + 1 < |chain| && chain[k] == this
      requires PrimedBelow(StateOf(chain), k + 1) && |deltaDown| == StateOf(chain)[k + 1].Rows()
      modifies chain
      decreases k
      ensures Linked(chain)
      ensures StateOf(chain) == BackFrom(old(StateOf(chain)), k + 1, deltaDown, old(StateOf(chain))[k + 1].weights)
    {
      ghost var S := StateOf(chain);
      var delta := HiddenSignal(deltaDown);
      StoreHiddenUpdate(delta);
      Reframe(chain, k, S);
      if upstream != null {
        upstream.Backprop(delta, chain, k - 1);
      }
    }

    /** This layer's own part of committing: adds the pending update to the weights. */
    method CommitStep()
      requires Shaped(Snapshot())
      modifies this`weights
      ensures Snapshot() == Committed(old(Snapshot()))
    {
      weights := AddM(weights, weightUpdate);
    }

    /** Adds the pending update to the weights of this layer and of every
        upstream layer; the pending updates themselves are kept. */
    method UpdateWeights(ghost chain: seq<Layer>, ghost k: nat)
      requires ChainValid(chain) && k < |chain| && chain[k] == this
      modifies chain
      decreases k
      ensures Linked(chain)
      ensures StateOf(chain) == CommitBelow(old(StateOf(chain)), k + 1)
    {
      ghost var S := StateOf(chain);
      CommitStep();
      Reframe(chain, k, S);
      if upstream != null {
        upstream.UpdateWeights(chain, k - 1);
      }
    }

    /** Sum of the squared weights of this layer and every upstream layer. */
    method WeightSqrd(ghost chain: seq<Layer>, ghost k: nat) returns (total: real)
      requires ChainValid(chain) && k < |chain| && chain[k] == this
      decreases k
      ensures total == SquaredWeightsBelow(StateOf(chain), k + 1)
    {
      total := 0.0;
      var i := 0;
      while i < |weights|
        invariant 0 <= i <= |weights|
        invariant total == FrobSq(weights[..i])
      {
        var j := 0;
        while j < |weights[i]|
          invariant 0 <= j <= |weights[i]|
          invariant total == FrobSq(weights[..i]) + SumSq(weights[i][..j])
        {
          assert weights[i][..j + 1][..j] == weights[i][..j];
          total := total + weights[i][j] * weights[i][j];
          j := j + 1;
        }
        assert weights[..i + 1][..i] == weights[..i] && weights[i][..j] == weights[i];
        i := i + 1;
      }
      assert weights[..i] == weights;
      if upstream != null {
        var above := upstream.WeightSqrd(chain, k - 1);
        total := total + above;
      }
    }

    /** The error of this layer's latest node values against `expected`. */
    method Error(expected: Vector, ghost chain: seq<Layer>, ghost k: nat) returns (e: real)
      requires ChainValid(chain) && k < |chain| && chain[k] == this
      requires |expected| == |nodeVals|
      ensures e == LayerError(StateOf(chain), k, expected)
    {
      var diff := Sub(expected, nodeVals);
      if lambda != 0.0 {
        var sq := WeightSqrd(chain, k);
        e := 0.5 * Dot(diff, diff) + 0.5 * lambda * sq;
      } else {
        e := 0.5 * Dot(diff, diff);
      }
    }
  }
}
