/** What training amounts to: each round is a gradient step, rounds compose,
    repeated passes without a commit collapse into one, batch training is
    online training, and the error is never negative. */
module TrainingFacts {
  import opened LinAlg
  import opened ChainSpec
  import opened ForwardFacts
  import opened BackpropFacts
  import opened Iteration
  import opened Training

  /** Rounds of online training keep the example fitting, and one more round
      is one more `Step`. */
  lemma RoundsNext(act: Activation, S: seq<LayerState>, x: Vector, t: Vector, n: nat)
    requires Fits(S, x, t)
    ensures Fits(Rounds(act, S, x, t, n), x, t)
    ensures Rounds(act, S, x, t, n + 1) == Step(act, Rounds(act, S, x, t, n), x, t)
  {
    var f := StepOn(act, x, t);
    var P := (y: seq<LayerState>) => Fits(y, x, t);
    forall y | P(y)
      ensures P(f(y))
    {
    }
    IterateKeeps(f, P, S, n);
  }

  /** Training `a` rounds and then `b` more is training `a + b` rounds. */
  lemma RoundsCompose(act: Activation, S: seq<LayerState>, x: Vector, t: Vector, a: nat, b: nat)
    ensures Rounds(act, S, x, t, a + b) == Rounds(act, Rounds(act, S, x, t, a), x, t, b)
  {
    IterateAdd(StepOn(act, x, t), S, a, b);
  }

  /** A second pass on the same example changes nothing: the forward pass
      recomputes every cache from weights the first pass left alone, and the
      backpropagation pass overwrites every pending update. */
  lemma PassSettles(act: Activation, S: seq<LayerState>, x: Vector, t: Vector)
    requires Fits(S, x, t)
    ensures Pass(act, Pass(act, S, x, t), x, t) == Pass(act, S, x, t)
  {
    var P1 := Pass(act, S, x, t);
    var F := ForwardPass(act, S, x);
    var F1 := ForwardPass(act, P1, x);
    assert forall m :: 0 <= m < |S| ==> SameWeights(P1[m], S[m]);
    ForwardFromIgnoresCaches(act, P1, S, 0, x);
    TrainIgnoresUpdates(F1, F, t);
  }

  /** Passes on one example keep it fitting, and one more pass is one more
      `Pass`. */
  lemma RepeatNext(act: Activation, S: seq<LayerState>, x: Vector, t: Vector, n: nat)
    requires Fits(S, x, t)
    ensures Fits(Repeat(act, S, x, t, n), x, t)
    ensures Repeat(act, S, x, t, n + 1) == Pass(act, Repeat(act, S, x, t, n), x, t)
  {
    var f := PassOn(act, x, t);
    var P := (y: seq<LayerState>) => Fits(y, x, t);
    forall y | P(y)
      ensures P(f(y))
    {
    }
    IterateKeeps(f, P, S, n);
  }

  /** Any positive number of passes on one example without a commit in
      between amounts to a single pass. */
  lemma RepeatCollapses(act: Activation, S: seq<LayerState>, x: Vector, t: Vector, n: int)
    requires Fits(S, x, t) && n >= 1
    ensures Repeat(act, S, x, t, n) == Pass(act, S, x, t)
  {
    var f := PassOn(act, x, t);
    PassSettles(act, S, x, t);
    assert f(f(S)) == f(S);
    IterateSettles(f, S, n);
  }

  /** `y` has as many layers as `S`, the same first-layer columns and the
      same output rows: whatever example fits `S` fits `y`. */
  ghost predicate SameEnds(y: seq<LayerState>, S: seq<LayerState>) {
    ChainShaped(y) && |y| == |S| > 0 &&
    y[0].ColCount() == S[0].ColCount() && y[|y| - 1].Rows() == S[|S| - 1].Rows()
  }

  /** With at least one round, batch training on one example is one round of
      online training on it. */
  lemma BatchStepIsStep(act: Activation, S: seq<LayerState>, xs: seq<Vector>, ts: seq<Vector>, rounds: int, i: nat, y: seq<LayerState>)
    requires BatchFits(S, xs, ts) && rounds >= 1 && SameEnds(y, S)
    ensures BatchOn(act, xs, ts, rounds)(i, y) == OnlineOn(act, xs, ts)(i, y)
    ensures SameEnds(OnlineOn(act, xs, ts)(i, y), S)
  {
    if i < |xs| {
      var x, t := xs[i], ts[i];
      assert Fits(y, x, t);
      RepeatCollapses(act, y, x, t, rounds);
      var r := Step(act, y, x, t);
      assert BatchOn(act, xs, ts, rounds)(i, y) == CommitOn()(Pass(act, y, x, t)) == r;
      assert Target(ts, i) == t;
      assert StepOn(act, x, t)(y) == r;
      assert OnlineOn(act, xs, ts)(i, y) == r;
      assert SameEnds(r, S);
    }
  }

  /** With at least one round, batch training is online training: each
      example makes one gradient step, committed before the next example. */
  lemma BatchIsOnline(act: Activation, S: seq<LayerState>, xs: seq<Vector>, ts: seq<Vector>, rounds: int, n: nat)
    requires BatchFits(S, xs, ts) && rounds >= 1
    ensures BatchUpTo(act, S, xs, ts, rounds, n) == OnlineUpTo(act, S, xs, ts, n)
  {
    var g := BatchOn(act, xs, ts, rounds);
    var h := OnlineOn(act, xs, ts);
    var P := (y: seq<LayerState>) => SameEnds(y, S);
    forall i: nat, y | i < n && P(y)
      ensures P(g(i, y)) && g(i, y) == h(i, y)
    {
      BatchStepIsStep(act, S, xs, ts, rounds, i, y);
    }
    SweepAgree(g, h, P, S, n);
  }

  /** `R` is `S` with every weight moved `k` times by its pending update, and
      the pending updates kept. */
  ghost predicate Accumulated(S: seq<LayerState>, R: seq<LayerState>, k: nat) {
    ChainShaped(S) && ChainShaped(R) && SameShape(R, S) &&
    (forall m :: 0 <= m < |S| ==> R[m].update == S[m].update) &&
    forall m, i, j :: 0 <= m < |S| && 0 <= i < S[m].Rows() && 0 <= j < S[m].ColCount() ==>
      R[m].weights[i][j] == S[m].weights[i][j] + (k as real) * S[m].update[i][j]
  }

  /** No commit at all moves no weight. */
  lemma AccumulatedNone(S: seq<LayerState>)
    requires ChainShaped(S)
    ensures Accumulated(S, S, 0)
  {
    forall m, i, j | 0 <= m < |S| && 0 <= i < S[m].Rows() && 0 <= j < S[m].ColCount()
      ensures S[m].weights[i][j] == S[m].weights[i][j] + (0 as real) * S[m].update[i][j]
    {
    }
  }

  /** One more commit moves every weight once more by its pending update. */
  lemma CommitAddsUpdate(S: seq<LayerState>, R: seq<LayerState>, k: nat, k1: nat)
    requires Accumulated(S, R, k) && k1 == k + 1
    ensures Accumulated(S, Commit(R), k1)
  {
    CommitEntries(R);
    forall m, i, j | 0 <= m < |S| && 0 <= i < S[m].Rows() && 0 <= j < S[m].ColCount()
      ensures Commit(R)[m].weights[i][j] == S[m].weights[i][j] + (k1 as real) * S[m].update[i][j]
    {
      var u := S[m].update[i][j];
      assert (k1 as real) * u == (k as real) * u + u;
    }
  }

  /** Commits with nothing recomputed in between add the same pending update
      again each time: after `n` of them every weight has moved by `n` times
      its pending update. */
  lemma {:induction false} CommitsAccumulate(S: seq<LayerState>, n: nat)
    requires ChainShaped(S)
    ensures Accumulated(S, Iterate(CommitOn(), S, n), n)
  {
    if n > 0 {
      CommitsAccumulate(S, n - 1);
      var R := Iterate(CommitOn(), S, n - 1);
      CommitAddsUpdate(S, R, n - 1, n);
      assert Iterate(CommitOn(), S, n) == Commit(R);
    } else {
      AccumulatedNone(S);
    }
  }

  /** With no rounds, batch training recomputes nothing and only commits the
      pending updates left from before, once per example. */
  lemma StaleCommits(act: Activation, S: seq<LayerState>, xs: seq<Vector>, ts: seq<Vector>, rounds: int, n: nat)
    requires rounds <= 0 && n <= |xs|
    ensures BatchUpTo(act, S, xs, ts, rounds, n) == Iterate(CommitOn(), S, n)
  {
    var g := BatchOn(act, xs, ts, rounds);
    forall i: nat, y | i < n
      ensures g(i, y) == CommitOn()(y)
    {
      assert Repeat(act, y, xs[i], Target(ts, i), rounds) == y;
    }
    SweepRepeats(g, CommitOn(), S, n);
  }

  /** Each layer after one round of online training: the layer as the
      round's forward pass left it, with the gradient of its signal as pending
      update, committed. */
  lemma StepLayers(act: Activation, S: seq<LayerState>, x: Vector, t: Vector)
    requires Fits(S, x, t)
    ensures forall m :: 0 <= m < |S| ==>
      Step(act, S, x, t)[m] == Committed(WithGradient(ForwardPass(act, S, x)[m], Signal(ForwardPass(act, S, x), t, m)))
  {
    var F := ForwardPass(act, S, x);
    var P := TrainPass(F, t);
    TrainPassLayers(F, t);
    CommitBelowLayers(P, |P|);
  }

  /** Committing a layer's gradient is one gradient-descent step: every weight
      moves by -alpha * (input * signal + lambda * weight), and the step stays
      behind as the pending update. */
  lemma GradientStep(L: LayerState, d: Vector)
    requires Primed(L) && |d| == L.Rows()
    ensures Committed(WithGradient(L, d)).update == Gradient(L, d)
    ensures forall i, j :: 0 <= i < L.Rows() && 0 <= j < L.ColCount() ==>
      Committed(WithGradient(L, d)).weights[i][j] ==
        L.weights[i][j] + UpdateEntry(L.alpha, L.lambda, L.inputs[j], d[i], L.weights[i][j])
    ensures Committed(WithGradient(L, d)).alpha == L.alpha && Committed(WithGradient(L, d)).lambda == L.lambda
  {
    var G := WithGradient(L, d);
    forall i, j | 0 <= i < L.Rows() && 0 <= j < L.ColCount()
      ensures Committed(G).weights[i][j] == G.weights[i][j] + G.update[i][j]
    {
    }
  }

  /** The input of layer `m` in a forward pass leaves the bias slot at 0, in
      every layer but the first, and in the first too when the input is
      shorter than its columns. */
  lemma BiasInputZero(act: Activation, S: seq<LayerState>, x: Vector, m: nat)
    requires ChainShaped(S) && |S| > 0 && |x| <= S[0].ColCount() && m < |S|
    requires m > 0 || |x| < S[0].ColCount()
    ensures ForwardPass(act, S, x)[m].inputs[S[m].ColCount() - 1] == 0.0
  {
    var F := ForwardPass(act, S, x);
    BiasSlotZero(act, S, x);
    if m > 0 {
      assert F[m].inputs == F[m - 1].nodeVals + [0.0];
      assert |F[m - 1].nodeVals| == S[m].ColCount() - 1;
    }
  }

  /** The bias weights never learn: in a layer whose input leaves the bias slot
      at 0 (by BiasInputZero, every layer of a forward pass but the first, and
      the first too when the input is shorter than its columns), committing a
      gradient only scales each bias weight by the weight-decay factor
      1 - alpha * lambda, and leaves it alone when lambda is zero. With
      StepLayers this is what a round of training does to the bias column. */
  lemma BiasEntryDecays(L: LayerState, d: Vector, i: nat)
    requires Primed(L) && |d| == L.Rows() && i < L.Rows() && L.inputs[L.ColCount() - 1] == 0.0
    ensures var c := L.ColCount() - 1;
      Committed(WithGradient(L, d)).weights[i][c] == L.weights[i][c] * (1.0 - L.alpha * L.lambda)
    ensures var c := L.ColCount() - 1;
      L.lambda == 0.0 ==> Committed(WithGradient(L, d)).weights[i][c] == L.weights[i][c]
  {
    var c := L.ColCount() - 1;
    var w := L.weights[i][c];
    GradientStep(L, d);
    assert UpdateEntry(L.alpha, L.lambda, 0.0, d[i], w) == -L.alpha * (L.lambda * w);
    assert w + -L.alpha * (L.lambda * w) == w * (1.0 - L.alpha * L.lambda);
  }

  /** The error is never negative while the weight-decay rate is not. */
  lemma ErrorNonNegative(S: seq<LayerState>, k: nat, t: Vector)
    requires k < |S| && |t| == |S[k].nodeVals| && S[k].lambda >= 0.0
    ensures LayerError(S, k, t) >= 0.0
  {
    DotSelfNonNegative(Sub(t, S[k].nodeVals));
    assert S[k].lambda * SquaredWeightsBelow(S, k + 1) >= 0.0;
  }

  /** The network's error on one example is never negative while the output
      layer's weight-decay rate is not. */
  lemma NetErrorNonNegative(act: Activation, S: seq<LayerState>, x: Vector, t: Vector)
    requires ChainShaped(S) && |S| > 0 && |x| <= S[0].ColCount() && |t| == S[|S| - 1].Rows()
    requires S[|S| - 1].lambda >= 0.0
    ensures NetError(act, S, x, t) >= 0.0
  {
    ForwardFromLayers(act, S, 0, x);
    ErrorNonNegative(ForwardPass(act, S, x), |S| - 1, t);
  }

  /** The summed error, and so the mean error over a batch, is never negative
      while the output layer's weight-decay rate is not. */
  lemma {:induction false} ErrorSumNonNegative(act: Activation, S: seq<LayerState>, xs: seq<Vector>, ts: seq<Vector>, n: nat)
    requires ErrorFits(S, xs, ts) && n <= |xs| && S[|S| - 1].lambda >= 0.0
    ensures ErrorSum(act, S, xs, ts, n) >= 0.0
    ensures n > 0 ==> ErrorSum(act, S, xs, ts, n) / (n as real) >= 0.0
  {
    if n > 0 {
      ErrorSumNonNegative(act, S, xs, ts, n - 1);
      NetErrorNonNegative(act, S, xs[n - 1], ts[n - 1]);
    }
  }
}
