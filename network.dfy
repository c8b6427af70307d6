/** The network: its list of layers, the first and the output layer, and the
    operations on the whole network, each proved to compute the corresponding
    value of module Training on the layers' state. */
module Networks {
  import opened LinAlg
  import opened ChainSpec
  import opened Layers
  import opened ForwardFacts
  import opened Iteration
  import opened Training
  import opened TrainingFacts

  /** A double-precision quotient: a real number, or NaN, which is what
      dividing zero by zero gives. */
  datatype Quotient = Number(value: real) | NaN

  /** A C# `int`: a 32-bit two's-complement integer. */
  newtype Int32 = x: int | -0x8000_0000 <= x < 0x8000_0000

  /** The `int` that C#'s unchecked arithmetic gives for the exact value
      `x`: the one congruent to `x` modulo 2^32. */
  function Wrap32(x: int): (r: Int32)
    ensures (r as int - x) % 0x1_0000_0000 == 0
    ensures -0x8000_0000 <= x < 0x8000_0000 ==> r as int == x
  {
    ((x + 0x8000_0000) % 0x1_0000_0000 - 0x8000_0000) as Int32
  }

  /** How many times the constructor's loop appends a further hidden layer:
      `hiddenLayerNumbers - 1` times for a positive count, and none for a
      negative one, except at the least `int`, where that bound wraps round
      to the greatest. */
  function ExtraHidden(hiddenLayerNumbers: Int32): nat {
    if hiddenLayerNumbers == -0x8000_0000 then 0x7FFF_FFFF
    else if hiddenLayerNumbers > 1 then hiddenLayerNumbers as int - 1
    else 0
  }

  /** The loop runs while its counter, from 0, is below the `int`
      `hiddenLayerNumbers - 1`, so `ExtraHidden` is its number of rounds. */
  lemma ExtraHiddenIsLoopBound(hiddenLayerNumbers: Int32)
    ensures var bound := Wrap32(hiddenLayerNumbers as int - 1);
      ExtraHidden(hiddenLayerNumbers) == if bound > 0 then bound as int else 0
  {
  }

  /** How many layers a network with `hiddenLayerNumbers` hidden layers has:
      the output layer alone when there are none, and otherwise the first
      layer, the `ExtraHidden` further hidden layers and the output layer. */
  function LayerCount(hiddenLayerNumbers: Int32): (n: nat)
    ensures n >= 1 && (hiddenLayerNumbers != 0 <==> n >= 2)
    ensures hiddenLayerNumbers >= 1 ==> n == hiddenLayerNumbers as int + 1
    ensures -0x8000_0000 < hiddenLayerNumbers < 0 ==> n == 2
    ensures hiddenLayerNumbers == -0x8000_0000 ==> n == 0x8000_0001
  {
    if hiddenLayerNumbers == 0 then 1 else ExtraHidden(hiddenLayerNumbers) + 2
  }

  /** The state the constructor gives each layer: the first takes the input,
      every later one the node values of the one before it; the output layer
      has `outputSize` nodes and every other one `hiddenLayerSize`. */
  function Planned(inputSize: nat, outputSize: nat, hiddenLayerNumbers: Int32, hiddenLayerSize: nat,
                   draw: (nat, nat, nat) -> real): (S: seq<LayerState>)
    ensures |S| == LayerCount(hiddenLayerNumbers)
  {
    var n := LayerCount(hiddenLayerNumbers);
    seq(n, m requires 0 <= m < n =>
      Initial(if m == 0 then inputSize else hiddenLayerSize,
              if m == n - 1 then outputSize else hiddenLayerSize, draw, m))
  }

  /** The layer sizes the constructor asks for: the first layer takes the
      input and the bias, the output layer has one node per output, and every
      other layer has `hiddenLayerSize` nodes. */
  ghost predicate Topology(S: seq<LayerState>, inputSize: nat, outputSize: nat, hiddenLayerSize: nat) {
    |S| > 0 && S[0].ColCount() == inputSize + 1 && S[|S| - 1].Rows() == outputSize &&
    forall m :: 0 <= m < |S| - 1 ==> S[m].Rows() == hiddenLayerSize
  }

  /** The planned layers fit together and have the requested sizes. */
  lemma PlannedShape(inputSize: nat, outputSize: nat, hiddenLayerNumbers: Int32, hiddenLayerSize: nat,
                     draw: (nat, nat, nat) -> real)
    requires outputSize >= 1 && (hiddenLayerNumbers != 0 ==> hiddenLayerSize >= 1)
    ensures var S := Planned(inputSize, outputSize, hiddenLayerNumbers, hiddenLayerSize, draw);
      ChainShaped(S) && Topology(S, inputSize, outputSize, hiddenLayerSize)
  {
    var S := Planned(inputSize, outputSize, hiddenLayerNumbers, hiddenLayerSize, draw);
    var n := |S|;
    forall m | 0 <= m < n
      ensures Shaped(S[m]) && S[m].ColCount() == (if m == 0 then inputSize else hiddenLayerSize) + 1
      ensures S[m].Rows() == if m == n - 1 then outputSize else hiddenLayerSize
    {
      assert S[m] == Initial(if m == 0 then inputSize else hiddenLayerSize,
                             if m == n - 1 then outputSize else hiddenLayerSize, draw, m);
    }
  }

  /** Distinct layers, none linked yet. */
  ghost predicate Unlinked(ls: seq<Layer>)
    reads ls`upstream, ls`downstream
  {
    (forall a, b :: 0 <= a < b < |ls| ==> ls[a] != ls[b]) &&
    (forall m :: 0 <= m < |ls| ==> ls[m].upstream == null && ls[m].downstream == null)
  }

  /** Layers whose states are the planned ones, one by one, have the planned
      state as a chain. */
  lemma AsPlanned(ls: seq<Layer>, P: seq<LayerState>)
    requires |ls| == |P| && forall m :: 0 <= m < |ls| ==> ls[m].Snapshot() == P[m]
    ensures StateOf(ls) == P
  {
  }

  /** `ls` followed by a new, unlinked layer of `size` nodes in position
      `|ls|`, taking as input the node values of the last layer of `ls`, which
      has `inputSize` nodes. */
  method Append(ls: seq<Layer>, inputSize: nat, size: nat, draw: (nat, nat, nat) -> real) returns (ls': seq<Layer>)
    requires |ls| > 0 && Unlinked(ls)
    requires Shaped(ls[|ls| - 1].Snapshot()) && ls[|ls| - 1].Size() == inputSize
    ensures |ls'| == |ls| + 1 && ls' == ls + [ls'[|ls|]] && fresh(ls'[|ls|]) && Unlinked(ls')
    ensures forall m :: 0 <= m < |ls| ==> ls[m].Snapshot() == old(ls[m].Snapshot())
    ensures ls'[|ls|].Snapshot() == Initial(inputSize, size, draw, |ls|)
  {
    var layer := new Layer(ls[|ls| - 1].Size(), size, draw, |ls|);
    ls' := ls + [layer];
  }

  /** The hidden layers of a network, not yet linked: the first layer and
      `ExtraHidden(hiddenLayerNumbers)` further ones, each taking the node
      values of the one before it. */
  method NewHidden(inputSize: nat, hiddenLayerNumbers: Int32, hiddenLayerSize: nat,
                   draw: (nat, nat, nat) -> real) returns (ls: seq<Layer>)
    requires hiddenLayerNumbers != 0 && hiddenLayerSize >= 1
    ensures |ls| == LayerCount(hiddenLayerNumbers) - 1
    ensures fresh(ls) && Unlinked(ls)
    ensures ls[0].Snapshot() == Initial(inputSize, hiddenLayerSize, draw, 0)
    ensures forall m :: 1 <= m < |ls| ==> ls[m].Snapshot() == Initial(hiddenLayerSize, hiddenLayerSize, draw, m)
  {
    var first := new Layer(inputSize, hiddenLayerSize, draw, 0);
    ls := [first];
    var n := ExtraHidden(hiddenLayerNumbers);
    for i := 0 to n
      invariant |ls| == i + 1
      invariant fresh(ls)
      invariant Unlinked(ls)
      invariant ls[0].Snapshot() == Initial(inputSize, hiddenLayerSize, draw, 0)
      invariant forall m :: 1 <= m < |ls| ==> ls[m].Snapshot() == Initial(hiddenLayerSize, hiddenLayerSize, draw, m)
    {
      // the last layer so far has `hiddenLayerSize` nodes
      var layer := new Layer(hiddenLayerSize, hiddenLayerSize, draw, |ls|);
      assert forall a :: 0 <= a < |ls| ==> ls[a] != layer;
      assert forall m :: 1 <= m < |ls| ==> ls[m].Snapshot() == Initial(hiddenLayerSize, hiddenLayerSize, draw, m);
      ls := ls + [layer];
    }
  }

  /** The layers of a network with hidden layers, not yet linked: the hidden
      layers and the output layer, which takes the last hidden layer's node
      values. */
  method NewLayers(inputSize: nat, outputSize: nat, hiddenLayerNumbers: Int32, hiddenLayerSize: nat,
                   draw: (nat, nat, nat) -> real) returns (ls: seq<Layer>)
    requires outputSize >= 1 && hiddenLayerNumbers != 0 && hiddenLayerSize >= 1
    ensures fresh(ls) && Unlinked(ls)
    ensures var P := Planned(inputSize, outputSize, hiddenLayerNumbers, hiddenLayerSize, draw);
      |ls| == |P| && forall m :: 0 <= m < |ls| ==> ls[m].Snapshot() == P[m]
  {
    ls := NewHidden(inputSize, hiddenLayerNumbers, hiddenLayerSize, draw);
    ghost var k := |ls|;
    ls := Append(ls, hiddenLayerSize, outputSize, draw);
    ghost var P := Planned(inputSize, outputSize, hiddenLayerNumbers, hiddenLayerSize, draw);
    forall m | 0 <= m < |ls|
      ensures ls[m].Snapshot() == P[m]
    {
      assert P[m] == Initial(if m == 0 then inputSize else hiddenLayerSize,
                             if m == k then outputSize else hiddenLayerSize, draw, m);
    }
  }

  /** Links every layer of `ls` to its neighbours, changing nothing else. */
  method Link(ls: seq<Layer>)
    requires |ls| >= 2
    requires forall a, b :: 0 <= a < b < |ls| ==> ls[a] != ls[b]
    requires forall m :: 0 <= m < |ls| ==> ls[m].upstream == null && ls[m].downstream == null
    modifies ls`upstream, ls`downstream
    ensures Linked(ls)
  {
    var n := |ls|;
    ls[0].SetDownstream(ls[1]);
    ls[n - 1].SetUpstream(ls[n - 2]);
    for i := 1 to n - 1
      invariant forall m {:trigger ls[m].downstream} :: 0 <= m < i ==> ls[m].downstream == ls[m + 1]
      invariant forall m {:trigger ls[m].upstream} :: 0 < m < i ==> ls[m].upstream == ls[m - 1]
      invariant ls[0].upstream == null && ls[n - 1].downstream == null && ls[n - 1].upstream == ls[n - 2]
    {
      ls[i].SetUpstream(ls[i - 1]);
      ls[i].SetDownstream(ls[i + 1]);
    }
  }

  /** The layers of a new network, linked first to last, in the planned
      state. */
  method NewChain(inputSize: nat, outputSize: nat, hiddenLayerNumbers: Int32, hiddenLayerSize: nat,
                  draw: (nat, nat, nat) -> real) returns (ls: seq<Layer>)
    requires outputSize >= 1 && (hiddenLayerNumbers != 0 ==> hiddenLayerSize >= 1)
    ensures fresh(ls) && Linked(ls)
    ensures StateOf(ls) == Planned(inputSize, outputSize, hiddenLayerNumbers, hiddenLayerSize, draw)
  {
    if hiddenLayerNumbers != 0 {
      ls := NewLayers(inputSize, outputSize, hiddenLayerNumbers, hiddenLayerSize, draw);
      Link(ls);
    } else {
      var only := new Layer(inputSize, outputSize, draw, 0);
      ls := [only];
    }
    AsPlanned(ls, Planned(inputSize, outputSize, hiddenLayerNumbers, hiddenLayerSize, draw));
  }

  /** Forward propagation along a valid chain, from its first layer. */
  method ForwardChain(act: Activation, ls: seq<Layer>, input: Vector) returns (out: Vector)
    requires ChainValid(ls) && |input| <= StateOf(ls)[0].ColCount()
    modifies ls
    ensures ChainValid(ls) && StateOf(ls) == ForwardPass(act, old(StateOf(ls)), input)
    ensures out == Output(StateOf(ls))
  {
    out := ls[0].Forward(act, input, ls, 0);
  }

  /** Backpropagation from the last layer of a chain after a forward pass:
      every layer computes its pending update. */
  method TrainChain(ls: seq<Layer>, t: Vector)
    requires ChainValid(ls) && PrimedBelow(StateOf(ls), |ls|) && |t| >= StateOf(ls)[|ls| - 1].Rows()
    modifies ls
    ensures ChainValid(ls) && StateOf(ls) == TrainPass(old(StateOf(ls)), t)
  {
    ls[|ls| - 1].Train(t, ls, |ls| - 1);
  }

  /** Commits the pending update of every layer of a chain. */
  method CommitChain(ls: seq<Layer>)
    requires ChainValid(ls)
    modifies ls
    ensures ChainValid(ls) && StateOf(ls) == Commit(old(StateOf(ls)))
  {
    ls[|ls| - 1].UpdateWeights(ls, |ls| - 1);
  }

  /** A forward and a backpropagation pass on one example, not committed. */
  method PassChain(act: Activation, ls: seq<Layer>, x: Vector, t: Vector)
    requires ChainValid(ls) && Fits(StateOf(ls), x, t)
    modifies ls
    ensures ChainValid(ls) && StateOf(ls) == Pass(act, old(StateOf(ls)), x, t)
  {
    var _ := ForwardChain(act, ls, x);
    TrainChain(ls, t);
  }

  /** One round of online training on one example: a pass and its commit. */
  method StepChain(act: Activation, ls: seq<Layer>, x: Vector, t: Vector)
    requires ChainValid(ls) && Fits(StateOf(ls), x, t)
    modifies ls
    ensures ChainValid(ls) && StateOf(ls) == Step(act, old(StateOf(ls)), x, t)
  {
    PassChain(act, ls, x, t);
    CommitChain(ls);
  }

  /** The error of the output layer of a chain against `t`. */
  method ErrorChain(ls: seq<Layer>, t: Vector) returns (e: real)
    requires ChainValid(ls) && |t| == StateOf(ls)[|ls| - 1].Rows()
    ensures e == LayerError(StateOf(ls), |ls| - 1, t)
  {
    e := ls[|ls| - 1].Error(t, ls, |ls| - 1);
  }

  /** A round of online training on a chain that has had `i` of them. */
  method RoundChain(act: Activation, ls: seq<Layer>, ghost S0: seq<LayerState>, x: Vector, t: Vector, ghost i: nat)
    requires ChainValid(ls) && Fits(S0, x, t) && StateOf(ls) == Rounds(act, S0, x, t, i)
    modifies ls
    ensures ChainValid(ls) && StateOf(ls) == Rounds(act, S0, x, t, i + 1)
  {
    RoundsNext(act, S0, x, t, i);
    StepChain(act, ls, x, t);
  }

  /** A further uncommitted pass on one example, on a chain that has had
      `i` of them since the state `R`. */
  method RepeatChain(act: Activation, ls: seq<Layer>, x: Vector, t: Vector, ghost R: seq<LayerState>, ghost i: nat)
    requires ChainValid(ls) && Fits(R, x, t) && StateOf(ls) == Repeat(act, R, x, t, i)
    modifies ls
    ensures ChainValid(ls) && StateOf(ls) == Repeat(act, R, x, t, i + 1)
  {
    RepeatNext(act, R, x, t, i);
    PassChain(act, ls, x, t);
  }

  /** The `rounds` uncommitted passes of batch training on example `q`;
      none when `rounds <= 0`, and then the target is not read. */
  method RepeatPasses(act: Activation, ls: seq<Layer>, xs: seq<Vector>, ts: seq<Vector>, rounds: int, q: nat)
    requires ChainValid(ls) && q < |xs|
    requires rounds > 0 ==> q < |ts| && Fits(StateOf(ls), xs[q], ts[q])
    modifies ls
    ensures ChainValid(ls) && StateOf(ls) == Repeat(act, old(StateOf(ls)), xs[q], Target(ts, q), rounds)
  {
    ghost var R := StateOf(ls);
    var n := if rounds > 0 then rounds else 0;
    for i := 0 to n
      invariant ChainValid(ls) && StateOf(ls) == Repeat(act, R, xs[q], Target(ts, q), i)
    {
      assert Target(ts, q) == ts[q];
      RepeatChain(act, ls, xs[q], ts[q], R, i);
    }
  }

  /** Batch training on example `q`: `rounds` uncommitted passes on it, then
      one commit. */
  method TrainExample(act: Activation, ls: seq<Layer>, ghost S0: seq<LayerState>, xs: seq<Vector>, ts: seq<Vector>,
                      rounds: int, q: nat)
    requires ChainValid(ls) && q < |xs| && StateOf(ls) == BatchUpTo(act, S0, xs, ts, rounds, q)
    requires rounds > 0 ==> BatchFits(S0, xs, ts) && SameEnds(StateOf(ls), S0)
    modifies ls
    ensures ChainValid(ls) && StateOf(ls) == BatchUpTo(act, S0, xs, ts, rounds, q + 1)
    ensures rounds > 0 ==> SameEnds(StateOf(ls), S0)
  {
    ghost var R := StateOf(ls);
    RepeatPasses(act, ls, xs, ts, rounds, q);
    ghost var Y := StateOf(ls);
    CommitChain(ls);
    assert BatchUpTo(act, S0, xs, ts, rounds, q + 1) == BatchOn(act, xs, ts, rounds)(q, R);
    assert BatchOn(act, xs, ts, rounds)(q, R) == CommitOn()(Y);
    if rounds > 0 {
      BatchStepIsStep(act, S0, xs, ts, rounds, q, R);
    }
  }

  /** The state a batch evaluation leaves after its first `i` examples: the
      forward pass on the last of them, or the starting state before any. */
  ghost function Evaluated(act: Activation, S0: seq<LayerState>, xs: seq<Vector>, ts: seq<Vector>, i: nat): seq<LayerState> {
    if i == 0 || i > |xs| || !ErrorFits(S0, xs, ts) then S0 else ForwardPass(act, S0, xs[i - 1])
  }

  /** Evaluating example `i` after the first `i`: the chain still fits the
      batch, the forward pass gives the next state, and the output layer's
      error there is the network's error on the example from the starting
      weights, whatever the earlier examples left in the caches. */
  lemma EvaluatedNext(act: Activation, S0: seq<LayerState>, xs: seq<Vector>, ts: seq<Vector>, i: nat)
    requires ErrorFits(S0, xs, ts) && i < |xs|
    ensures SameEnds(Evaluated(act, S0, xs, ts, i), S0)
    ensures ForwardPass(act, Evaluated(act, S0, xs, ts, i), xs[i]) == Evaluated(act, S0, xs, ts, i + 1)
    ensures LayerError(Evaluated(act, S0, xs, ts, i + 1), |S0| - 1, ts[i]) == NetError(act, S0, xs[i], ts[i])
  {
    if i > 0 {
      ForwardIgnoresCaches(act, Evaluated(act, S0, xs, ts, i), S0, xs[i]);
    }
  }

  /** Adds the error on example `i` of a batch, after a forward pass on it,
      to the sum of the errors on the examples before it. */
  method ErrorStep(act: Activation, ls: seq<Layer>, ghost S0: seq<LayerState>, xs: seq<Vector>, ts: seq<Vector>, i: nat, sum: real)
      returns (sum': real)
    requires ChainValid(ls) && ErrorFits(S0, xs, ts) && i < |xs|
    requires StateOf(ls) == Evaluated(act, S0, xs, ts, i) && sum == ErrorSum(act, S0, xs, ts, i)
    modifies ls
    ensures ChainValid(ls) && StateOf(ls) == Evaluated(act, S0, xs, ts, i + 1)
    ensures sum' == ErrorSum(act, S0, xs, ts, i + 1)
  {
    EvaluatedNext(act, S0, xs, ts, i);
    var _ := ForwardChain(act, ls, xs[i]);
    var err := ErrorChain(ls, ts[i]);
    sum' := sum + err;
  }

  /** `rounds` rounds of online training on one example; none when
      `rounds <= 0`. */
  method TrainRounds(act: Activation, ls: seq<Layer>, x: Vector, t: Vector, rounds: int)
    requires ChainValid(ls) && (rounds > 0 ==> Fits(StateOf(ls), x, t))
    modifies ls
    ensures ChainValid(ls) && StateOf(ls) == Rounds(act, old(StateOf(ls)), x, t, rounds)
  {
    ghost var S0 := StateOf(ls);
    var n := if rounds > 0 then rounds else 0;
    for i := 0 to n
      invariant ChainValid(ls) && StateOf(ls) == Rounds(act, S0, x, t, i)
    {
      RoundChain(act, ls, S0, x, t, i);
    }
  }

  /** Batch training over every example in turn: `rounds` uncommitted
      passes on it, then one commit. */
  method TrainExamples(act: Activation, ls: seq<Layer>, xs: seq<Vector>, ts: seq<Vector>, rounds: int)
    requires ChainValid(ls) && (rounds > 0 ==> BatchFits(StateOf(ls), xs, ts))
    modifies ls
    ensures ChainValid(ls) && StateOf(ls) == BatchUpTo(act, old(StateOf(ls)), xs, ts, rounds, |xs|)
  {
    ghost var S0 := StateOf(ls);
    for qq := 0 to |xs|
      invariant ChainValid(ls) && StateOf(ls) == BatchUpTo(act, S0, xs, ts, rounds, qq)
      invariant rounds > 0 ==> SameEnds(StateOf(ls), S0)
    {
      TrainExample(act, ls, S0, xs, ts, rounds, qq);
    }
  }

  /** The sum of the errors on a batch, each after a forward pass on its
      example. */
  method ErrorSumChain(act: Activation, ls: seq<Layer>, xs: seq<Vector>, ts: seq<Vector>) returns (sum: real)
    requires ChainValid(ls) && ErrorFits(StateOf(ls), xs, ts)
    modifies ls
    ensures ChainValid(ls) && sum == ErrorSum(act, old(StateOf(ls)), xs, ts, |xs|)
    ensures StateOf(ls) == Evaluated(act, old(StateOf(ls)), xs, ts, |xs|)
  {
    ghost var S0 := StateOf(ls);
    sum := 0.0;
    for i := 0 to |xs|
      invariant ChainValid(ls) && sum == ErrorSum(act, S0, xs, ts, i)
      invariant StateOf(ls) == Evaluated(act, S0, xs, ts, i)
    {
      sum := ErrorStep(act, ls, S0, xs, ts, i, sum);
    }
  }

  /** The mean error over a batch, each example evaluated after a forward
      pass on it; not a number for an empty batch. */
  method MeanErrorChain(act: Activation, ls: seq<Layer>, xs: seq<Vector>, ts: seq<Vector>) returns (e: Quotient)
    requires ChainValid(ls) && ErrorFits(StateOf(ls), xs, ts)
    modifies ls
    ensures ChainValid(ls)
    ensures |xs| == 0 ==> e == NaN && StateOf(ls) == old(StateOf(ls))
    ensures |xs| > 0 ==> e == Number(MeanError(act, old(StateOf(ls)), xs, ts))
    ensures |xs| > 0 ==> StateOf(ls) == ForwardPass(act, old(StateOf(ls)), xs[|xs| - 1])
  {
    var sum := ErrorSumChain(act, ls, xs, ts);
    if |xs| == 0 {
      return NaN;
    }
    e := Number(sum / (|xs| as real));
  }

  class Network {
    /** The activation function of every node. */
    const act: Activation
    var layers: seq<Layer>
    var firstLayer: Layer
    var outputLayer: Layer

    /** The layers form a valid chain from `firstLayer` to `outputLayer`. */
    ghost predicate Valid()
      reads this, layers
    {
      ChainValid(layers) && firstLayer == layers[0] && outputLayer == layers[|layers| - 1]
    }

    /** The state of every layer, first to last. */
    ghost function State(): seq<LayerState>
      reads this, layers
    {
      StateOf(layers)
    }

    /** A new network with random weights: `draw(m, i, j)` is the draw for
        weight (i, j) of layer m. With hidden layers the first layer maps the
        input to `hiddenLayerSize` nodes, further hidden layers keep that
        width, and the output layer maps it to `outputSize` nodes; with none,
        one layer maps the input straight to the output. */
    constructor (act: Activation, inputSize: nat, outputSize: nat, hiddenLayerNumbers: Int32, hiddenLayerSize: nat,
                 draw: (nat, nat, nat) -> real)
      requires outputSize >= 1 && (hiddenLayerNumbers != 0 ==> hiddenLayerSize >= 1)
      ensures Valid() && this.act == act && fresh(layers)
      ensures State() == Planned(inputSize, outputSize, hiddenLayerNumbers, hiddenLayerSize, draw)
      ensures hiddenLayerNumbers == 0 ==> firstLayer == outputLayer
    {
      var ls := NewChain(inputSize, outputSize, hiddenLayerNumbers, hiddenLayerSize, draw);
      PlannedShape(inputSize, outputSize, hiddenLayerNumbers, hiddenLayerSize, draw);
      this.act := act;
      layers := ls;
      firstLayer := ls[0];
      outputLayer := ls[|ls| - 1];
    }

    /** A network made of layers loaded from a file; the file is not part of
        this model, `loaded` stands for what was read from it. */
    constructor Load(act: Activation, loaded: seq<Layer>)
      requires |loaded| > 0
      ensures this.act == act && layers == loaded
      ensures firstLayer == loaded[0] && outputLayer == loaded[|loaded| - 1]
      ensures Valid() <==> ChainValid(loaded)
    {
      this.act := act;
      layers := loaded;
      firstLayer := loaded[0];
      outputLayer := loaded[|loaded| - 1];
    }

    /** Replaces the layers by ones loaded from a file. The list is installed
        first; with no layer in it there is no first layer to take, and the
        operation fails with first and output layer left as they were. */
    method Deserialize(loaded: seq<Layer>) returns (ok: bool)
      modifies this
      ensures layers == loaded && ok == (|loaded| > 0)
      ensures ok ==> firstLayer == loaded[0] && outputLayer == loaded[|loaded| - 1]
      ensures ok ==> (Valid() <==> ChainValid(loaded))
      ensures !ok ==> firstLayer == old(firstLayer) && outputLayer == old(outputLayer)
    {
      layers := loaded;
      if |loaded| == 0 {
        return false;
      }
      firstLayer := layers[0];
      outputLayer := layers[|layers| - 1];
      return true;
    }

    /** Forward propagation from the first layer: every layer caches its
        input and node values, and the output layer's node values come back. */
    method Forward(input: Vector) returns (out: Vector)
      requires Valid() && |input| <= State()[0].ColCount()
      modifies layers
      ensures Valid() && State() == ForwardPass(act, old(State()), input)
      ensures out == Output(State())
    {
      out := ForwardChain(act, layers, input);
    }

    /** `rounds` rounds of online training on one example, each a forward
        pass, a backpropagation pass and the commit of the updates; none
        when `rounds <= 0`. */
    method Train(x: Vector, t: Vector, rounds: int)
      requires Valid() && (rounds > 0 ==> Fits(State(), x, t))
      modifies layers
      ensures Valid() && State() == Rounds(act, old(State()), x, t, rounds)
    {
      TrainRounds(act, layers, x, t, rounds);
    }

    /** Batch training: for each example in turn, `rounds` forward and
        backpropagation passes, then one commit of the pending updates. */
    method TrainBatch(xs: seq<Vector>, ts: seq<Vector>, rounds: int)
      requires Valid() && (rounds > 0 ==> BatchFits(State(), xs, ts))
      modifies layers
      ensures Valid() && State() == BatchUpTo(act, old(State()), xs, ts, rounds, |xs|)
    {
      TrainExamples(act, layers, xs, ts, rounds);
    }

    /** The error on one example, after a forward pass on it. */
    method Error(x: Vector, t: Vector) returns (e: real)
      requires Valid() && |x| <= State()[0].ColCount() && |t| == State()[|layers| - 1].Rows()
      modifies layers
      ensures Valid() && State() == ForwardPass(act, old(State()), x)
      ensures e == NetError(act, old(State()), x, t)
    {
      var _ := ForwardChain(act, layers, x);
      e := ErrorChain(layers, t);
    }

    /** The mean error over a batch, each example evaluated with the same
        weights; NaN for an empty batch. */
    method ErrorBatch(xs: seq<Vector>, ts: seq<Vector>) returns (e: Quotient)
      requires Valid() && ErrorFits(State(), xs, ts)
      modifies layers
      ensures Valid()
      ensures |xs| == 0 ==> e == NaN && State() == old(State())
      ensures |xs| > 0 ==> e == Number(MeanError(act, old(State()), xs, ts))
      ensures |xs| > 0 ==> State() == ForwardPass(act, old(State()), xs[|xs| - 1])
    {
      e := MeanErrorChain(act, layers, xs, ts);
    }
  }
}
