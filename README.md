# A verified model of the neuralNet network engine

This project models the feed-forward neural network of `neuralNet.cs`. The
model covers the class `net` and its nested class `layer`. A network is a
chain of layers linked through their `upstream` and `downstream` references.
Each layer owns:

- a weight matrix of `size` rows and `inputSize + 1` columns, whose last
  column multiplies the bias slot of the input;
- a pending update of the same shape;
- the node values and the input cached by the latest forward pass.

The network supports these operations:

- forward propagation, which recurses downstream;
- backpropagation against a target, which recurses upstream and only fills
  the pending updates;
- committing the pending updates to the weights, which also recurses upstream;
- online training (`rounds` forward, backpropagation and commit cycles on one
  example);
- batch training (for each example in turn: `rounds` forward and
  backpropagation passes, then one commit);
- the error on one example, and the mean error over a batch.

The model has two levels:

- **Values** (modules `ChainSpec`, `Training`, `Iteration`). The state of a
  layer is a `LayerState`. The state of a network is a `seq<LayerState>`, and
  every operation is a function on it.
- **Heap objects** (modules `Layers`, `Networks`). `Layers.Layer` and
  `Networks.Network` are classes with the source's fields. Their methods keep
  the source's recursion along the links and its loops, and they are proved
  to turn the state of the chain into the value the corresponding function
  gives.

What is proved about those functions lives in `ForwardFacts`,
`BackpropFacts` and `TrainingFacts`:

- the output lies in (0, 1);
- the bias slot of every later layer's input is 0, and so is the first
  layer's when the input is shorter than the layer's columns. The output
  then does not depend on the bias weights, and a commit multiplies a bias
  weight by 1 - alpha * lambda. This shrinks the weight only while
  0 <= alpha * lambda < 2;
- a backpropagation pass changes nothing but the pending updates, and these
  are the gradient of each layer's error signal;
- a second pass on the same example changes nothing, so the `rounds` passes
  of batch training amount to one;
- batch training with at least one round is online training, one step per
  example;
- with no rounds, batch training re-commits the stale pending updates once
  per example;
- the error is never negative while lambda is not negative.

The model follows the code in three places where a reader of its comments
might expect something else:

- **The bias slot of every input is 0, not 1.**
  - `forward` builds a vector holding 1 but never copies it in. It copies
    only the input, at offset 0, into a zero vector with one slot per
    column. The bias slot keeps its 0 unless the input is as long as the
    whole row.
  - Lemmas `BiasSlotZero`, `ForwardIgnoresBias` and `BiasEntryDecays` state
    what follows from this.
  - The comment in `forward` (neuralNet.cs line 119) calls the bias input a
    constant 1. The model follows the code.
- **Batch training commits after every example**, not once per batch.
- **`error` over an empty batch divides 0 by 0**, which gives NaN.
  - The model returns the `Quotient` value `NaN`. It does not require a
    non-empty batch.

## Model

| member | source | states |
|---|---|---|
| LinAlg.Padded | neuralNet/neuralNet/neuralNet.cs:122-124 | copying the input into a zero vector of the column count at offset 0 keeps the input in front and zeros behind it |
| LinAlg.PaddedByOne | neuralNet/neuralNet/neuralNet.cs:122-124 | an input one shorter than the column count gets exactly one 0 appended, in the bias slot |
| LinAlg.DotSelfNonNegative | neuralNet/neuralNet/neuralNet.cs:96-100 | the dot product of the error vector with itself is its sum of squares, so it is never negative |
| LinAlg.SumSq | neuralNet/neuralNet/neuralNet.cs:75-78 | a sum of squared entries is never negative |
| LinAlg.FrobSq | neuralNet/neuralNet/neuralNet.cs:73-79 | the squared weights of a whole matrix sum to a non-negative number |
| ChainSpec.Activate | neuralNet/neuralNet/neuralNet.cs:107-110 | the activation applied element-wise keeps the length, entry j is the activation of entry j |
| ChainSpec.LayerForward | neuralNet/neuralNet/neuralNet.cs:117-129 | one layer's forward step caches an input with one entry per column and changes neither weights, pending update nor rates |
| ChainSpec.ForwardFrom | neuralNet/neuralNet/neuralNet.cs:117-140 | a forward pass from layer k leaves the layers before k as they were, primes every layer from k on, keeps all shapes and weights |
| ChainSpec.ForwardPass | neuralNet/neuralNet/neuralNet.cs:299-302 | a forward pass from the first layer primes every layer and changes only the caches |
| ChainSpec.OutputDelta | neuralNet/neuralNet/neuralNet.cs:149-154 | the output layer's error signal has one entry per node |
| ChainSpec.HiddenDelta | neuralNet/neuralNet/neuralNet.cs:185-193 | a hidden layer's error signal has one entry per node, reading only the non-bias columns of the downstream weights |
| ChainSpec.Gradient | neuralNet/neuralNet/neuralNet.cs:196-202 | entry (i, j) of the pending update is -alpha * (input_j * delta_i + lambda * w_ij), for every entry of the weight shape |
| ChainSpec.WithGradient | neuralNet/neuralNet/neuralNet.cs:157-170 | storing a gradient changes nothing about a layer but its pending update |
| ChainSpec.BackFrom | neuralNet/neuralNet/neuralNet.cs:182-208 | backpropagation through the hidden layers keeps the chain shape-compatible and changes nothing but pending updates |
| ChainSpec.TrainFrom | neuralNet/neuralNet/neuralNet.cs:146-176 | backpropagation from layer k keeps the chain shape-compatible and changes nothing but pending updates |
| ChainSpec.TrainPass | neuralNet/neuralNet/neuralNet.cs:146-176 | a whole backpropagation pass changes nothing but pending updates |
| ChainSpec.Committed | neuralNet/neuralNet/neuralNet.cs:216 | committing one layer keeps its shape |
| ChainSpec.CommitBelow | neuralNet/neuralNet/neuralNet.cs:214-221 | committing layers n-1 down to 0 keeps the chain shape-compatible |
| ChainSpec.Commit | neuralNet/neuralNet/neuralNet.cs:214-221 | committing every layer keeps the chain shape-compatible |
| ChainSpec.LayerError | neuralNet/neuralNet/neuralNet.cs:88-102 | defines a layer's error: half the squared distance of its node values from the target, plus half lambda times the squared weights of it and every upstream layer when lambda is not 0; `TrainingFacts.ErrorNonNegative` states its bound |
| ChainSpec.SquaredWeightsBelow | neuralNet/neuralNet/neuralNet.cs:70-86 | the squared weights of a layer and all upstream layers sum to a non-negative number |
| ForwardFacts.ForwardFromLayers | neuralNet/neuralNet/neuralNet.cs:117-140 | layer k takes the input, and every later layer takes the node values the layer before it computed in the same pass |
| ForwardFacts.ForwardOutputRange | neuralNet/neuralNet/neuralNet.cs:62-65 | for an activation into (0, 1), the output has one value per output node, each strictly between 0 and 1 |
| ForwardFacts.BiasSlotZero | neuralNet/neuralNet/neuralNet.cs:119-129 | every layer after the first caches the previous node values followed by 0; the first caches 0 in its bias slot when the input is shorter than its columns |
| ForwardFacts.LayerIgnoresBias | neuralNet/neuralNet/neuralNet.cs:122-127 | with the bias slot at 0, a layer's node values do not depend on its bias column |
| ForwardFacts.ForwardFromIgnoresBias | neuralNet/neuralNet/neuralNet.cs:117-140 | when the input is shorter than layer k's columns, the output of a forward pass from layer k does not depend on any bias column |
| ForwardFacts.ForwardIgnoresBias | neuralNet/neuralNet/neuralNet.cs:299-302 | when the input is shorter than the first layer's columns, two networks differing only in their bias columns give the same output |
| ForwardFacts.ForwardFromIgnoresCaches | neuralNet/neuralNet/neuralNet.cs:117-140 | the caches of layer k onwards after a forward pass depend only on the weights and rates |
| ForwardFacts.ForwardIgnoresCaches | neuralNet/neuralNet/neuralNet.cs:299-302 | a forward pass overwrites every cache: networks with the same weights, rates and pending updates end in the same state |
| BackpropFacts.Signal | neuralNet/neuralNet/neuralNet.cs:146-208 | the error signal of each layer, from the output layer down, has one entry per node |
| BackpropFacts.BackFromLayers | neuralNet/neuralNet/neuralNet.cs:182-208 | after backpropagation from layer n, every layer below n holds the gradient of its own signal and the rest are unchanged |
| BackpropFacts.BackFromKeepsRest | neuralNet/neuralNet/neuralNet.cs:204-207 | the hidden recursion only moves upstream: every layer from n on comes out as it went in, whatever the signal |
| BackpropFacts.TrainFromKeepsRest | neuralNet/neuralNet/neuralNet.cs:172-175 | backpropagation started at layer k leaves every layer after k exactly as it was |
| BackpropFacts.TrainPassLayers | neuralNet/neuralNet/neuralNet.cs:146-208 | a backpropagation pass leaves every layer as it was except its pending update, which becomes the gradient of its signal |
| BackpropFacts.SignalIgnoresUpdates | neuralNet/neuralNet/neuralNet.cs:185-193 | the error signals read only node values and weights, never the pending updates |
| BackpropFacts.GradientOverwrites | neuralNet/neuralNet/neuralNet.cs:196-202 | storing a gradient overwrites the whole pending update |
| BackpropFacts.TrainIgnoresUpdates | neuralNet/neuralNet/neuralNet.cs:146-208 | what a backpropagation pass stores does not depend on the pending updates it finds |
| BackpropFacts.GradientBiasIsDecay | neuralNet/neuralNet/neuralNet.cs:163-167 | with the bias slot at 0, the pending change of a bias weight is -alpha * lambda * w whatever the signal |
| BackpropFacts.CommitBelowLayers | neuralNet/neuralNet/neuralNet.cs:214-221 | committing layers n-1 down to 0 replaces each by its committed form and leaves the others alone |
| BackpropFacts.CommitEntries | neuralNet/neuralNet/neuralNet.cs:214-221 | a commit adds each pending update entry to its weight and keeps pending updates, caches and rates |
| Training.Rounds | neuralNet/neuralNet/neuralNet.cs:308-316 | defines online training: `rounds` Steps on one example, none when rounds <= 0; `TrainingFacts.RoundsNext` and `RoundsCompose` state its properties |
| Training.BatchUpTo | neuralNet/neuralNet/neuralNet.cs:323-334 | defines batch training over the first n examples in order, each with `rounds` uncommitted passes then one commit; `TrainingFacts.BatchIsOnline` and `StaleCommits` state what it amounts to |
| Training.NetError | neuralNet/neuralNet/neuralNet.cs:340-344 | defines the network's error on one example: the output layer's error after a forward pass; `TrainingFacts.NetErrorNonNegative` states its bound |
| Training.MeanError | neuralNet/neuralNet/neuralNet.cs:350-359 | defines the mean error over a non-empty batch, every example evaluated from the same weights; `TrainingFacts.ErrorSumNonNegative` states its bound |
| Training.Repeat | neuralNet/neuralNet/neuralNet.cs:327-331 | defines the inner loop of batch training: `rounds` forward passes and backpropagations on one example with no commit, none when rounds <= 0; `TrainingFacts.RepeatNext` and `RepeatCollapses` state its properties |
| Training.ErrorSum | neuralNet/neuralNet/neuralNet.cs:352-357 | defines the sum of the errors on the first n examples, each from the same weights; `TrainingFacts.ErrorSumNonNegative` states its bound and `Networks.ErrorStep` ties it to the loop |
| Training.Pass | neuralNet/neuralNet/neuralNet.cs:312-313 | a forward pass then backpropagation keeps the shape and primes every layer |
| Training.Step | neuralNet/neuralNet/neuralNet.cs:312-314 | one round of online training keeps the shape, so the example still fits |
| TrainingFacts.RoundsNext | neuralNet/neuralNet/neuralNet.cs:308-316 | rounds keep the example fitting and each further round is one more Step |
| TrainingFacts.RoundsCompose | neuralNet/neuralNet/neuralNet.cs:308-316 | a rounds of training followed by b more is a + b rounds |
| TrainingFacts.PassSettles | neuralNet/neuralNet/neuralNet.cs:327-331 | a second uncommitted pass on the same example changes nothing |
| TrainingFacts.RepeatNext | neuralNet/neuralNet/neuralNet.cs:327-331 | passes keep the example fitting and each further pass is one more Pass |
| TrainingFacts.RepeatCollapses | neuralNet/neuralNet/neuralNet.cs:327-331 | any positive number of uncommitted passes on one example amounts to one pass |
| TrainingFacts.BatchStepIsStep | neuralNet/neuralNet/neuralNet.cs:325-333 | with at least one round, batch training on one example is one round of online training on it |
| TrainingFacts.BatchIsOnline | neuralNet/neuralNet/neuralNet.cs:323-334 | with at least one round, batch training over a list is online training over it, one step per example in order |
| TrainingFacts.CommitAddsUpdate | neuralNet/neuralNet/neuralNet.cs:214-221 | one more commit moves every weight once more by its pending update |
| TrainingFacts.CommitsAccumulate | neuralNet/neuralNet/neuralNet.cs:332 | n commits with nothing recomputed move every weight by n times its pending update |
| TrainingFacts.StaleCommits | neuralNet/neuralNet/neuralNet.cs:323-334 | with no rounds, batch training only re-commits the stale pending updates once per example |
| TrainingFacts.StepLayers | neuralNet/neuralNet/neuralNet.cs:312-314 | after one round each layer is its forward-pass state with the gradient of its signal stored and committed |
| TrainingFacts.GradientStep | neuralNet/neuralNet/neuralNet.cs:163-216 | committing a gradient moves each weight by -alpha * (input * signal + lambda * weight) and keeps that step pending |
| TrainingFacts.BiasInputZero | neuralNet/neuralNet/neuralNet.cs:119-124 | the bias slot of a layer's cached input is 0 after a forward pass, in the first layer when the input is shorter than its columns |
| TrainingFacts.BiasEntryDecays | neuralNet/neuralNet/neuralNet.cs:163-216 | with the bias slot at 0, a commit only scales a bias weight by 1 - alpha * lambda, leaving it alone when lambda is 0 |
| TrainingFacts.ErrorNonNegative | neuralNet/neuralNet/neuralNet.cs:91-102 | a layer's error is never negative while lambda is not |
| TrainingFacts.NetErrorNonNegative | neuralNet/neuralNet/neuralNet.cs:340-344 | the network's error on one example is never negative while the output layer's lambda is not |
| TrainingFacts.ErrorSumNonNegative | neuralNet/neuralNet/neuralNet.cs:350-359 | the summed and the mean error over a batch are never negative while the output layer's lambda is not |
| Layers.Initial | neuralNet/neuralNet/neuralNet.cs:20-37 | a new layer is size x (inputSize + 1) with the drawn weights, zero pending update and node values, no cached input, alpha 0.001 and lambda 0 |
| Layers.Layer.constructor | neuralNet/neuralNet/neuralNet.cs:32-37 | a new layer is in the initial state and unlinked |
| Layers.Layer.GetUpstream | neuralNet/neuralNet/neuralNet.cs:39-42 | returns the upstream link |
| Layers.Layer.GetDownstream | neuralNet/neuralNet/neuralNet.cs:44-47 | returns the downstream link |
| Layers.Layer.SetUpstream | neuralNet/neuralNet/neuralNet.cs:49-52 | sets the upstream link and nothing else |
| Layers.Layer.SetDownstream | neuralNet/neuralNet/neuralNet.cs:54-57 | sets the downstream link and nothing else |
| Layers.Layer.Size | neuralNet/neuralNet/neuralNet.cs:237-240 | the node count is the row count of the weights, at least 1 |
| Layers.Layer.InputSize | neuralNet/neuralNet/neuralNet.cs:245-248 | the input count is the column count less the bias column |
| Layers.Layer.ForwardStep | neuralNet/neuralNet/neuralNet.cs:119-129 | the layer's own forward step changes its caches to LayerForward's |
| Layers.Layer.Forward | neuralNet/neuralNet/neuralNet.cs:117-140 | the recursive forward pass keeps the links, turns the chain's state into ForwardFrom's and returns the output layer's node values |
| Layers.Layer.OutputSignal | neuralNet/neuralNet/neuralNet.cs:149-154 | the loop computes the output layer's error signal entry by entry |
| Layers.Layer.StoreOutputUpdate | neuralNet/neuralNet/neuralNet.cs:157-170 | both lambda branches store the gradient for the signal and change nothing else |
| Layers.Layer.HiddenSignal | neuralNet/neuralNet/neuralNet.cs:185-193 | the nested loops compute the hidden error signal from the downstream signal and weights |
| Layers.Layer.StoreHiddenUpdate | neuralNet/neuralNet/neuralNet.cs:196-202 | stores the gradient for the signal and changes nothing else |
| Layers.Layer.Train | neuralNet/neuralNet/neuralNet.cs:146-176 | backpropagation from the output layer keeps the links and turns the chain's state into TrainFrom's |
| Layers.Layer.Backprop | neuralNet/neuralNet/neuralNet.cs:182-208 | backpropagation at a hidden layer keeps the links and turns the chain's state into BackFrom's |
| Layers.Layer.CommitStep | neuralNet/neuralNet/neuralNet.cs:216 | the layer's own commit turns its state into the committed one |
| Layers.Layer.UpdateWeights | neuralNet/neuralNet/neuralNet.cs:214-221 | committing this and every upstream layer keeps the links and turns the chain's state into CommitBelow's |
| Layers.Layer.WeightSqrd | neuralNet/neuralNet/neuralNet.cs:70-86 | the loops and the upstream recursion sum the squared weights of this and every upstream layer |
| Layers.Layer.Error | neuralNet/neuralNet/neuralNet.cs:91-102 | returns the layer's error against the expected values, with the weight-decay term only when lambda is non-zero |
| Networks.Wrap32 | neuralNet/neuralNet/neuralNet.cs:263 | unchecked `int` arithmetic: the result is the `int` congruent to the exact value modulo 2^32, and the exact value itself when that fits |
| Networks.ExtraHiddenIsLoopBound | neuralNet/neuralNet/neuralNet.cs:263-266 | the loop appends h - 1 hidden layers for h >= 1 and none for other negative counts, but 2^31 - 1 at the least `int`, where `hiddenLayerNumbers - 1` wraps round |
| Networks.ExtraHidden | neuralNet/neuralNet/neuralNet.cs:263 | defines how many further hidden layers the constructor's loop appends; `Networks.ExtraHiddenIsLoopBound` ties it to the wrapped `int` bound |
| Networks.LayerCount | neuralNet/neuralNet/neuralNet.cs:259-283 | one layer with no hidden layers, h + 1 with h >= 1, two for a negative count, and 2^31 + 1 at the least `int` |
| Networks.Planned | neuralNet/neuralNet/neuralNet.cs:256-285 | the planned state has LayerCount layers |
| Networks.PlannedShape | neuralNet/neuralNet/neuralNet.cs:256-285 | the planned layers are shape-compatible, the first has inputSize + 1 columns, the output layer outputSize rows, the others hiddenLayerSize rows |
| Networks.Append | neuralNet/neuralNet/neuralNet.cs:267-268 | appends a new unlinked layer in its initial state taking the last layer's node values, changing no other layer |
| Networks.NewHidden | neuralNet/neuralNet/neuralNet.cs:261-266 | LayerCount - 1 hidden layers, so 2^31 of them at the least `int`, all fresh, distinct, unlinked and in their initial states, each taking the node values of the one before |
| Networks.NewLayers | neuralNet/neuralNet/neuralNet.cs:261-268 | the hidden layers and the output layer are in the planned states |
| Networks.Link | neuralNet/neuralNet/neuralNet.cs:269-275 | links every layer to its neighbours, the ends to nothing |
| Networks.NewChain | neuralNet/neuralNet/neuralNet.cs:258-283 | a fresh linked chain in the planned state, one unlinked layer when there are no hidden layers |
| Networks.ForwardChain | neuralNet/neuralNet/neuralNet.cs:299-302 | forward propagation turns the chain's state into ForwardPass's and returns its output |
| Networks.TrainChain | neuralNet/neuralNet/neuralNet.cs:313 | backpropagation from the output layer turns the chain's state into TrainPass's |
| Networks.CommitChain | neuralNet/neuralNet/neuralNet.cs:314 | committing from the output layer turns the chain's state into Commit's |
| Networks.PassChain | neuralNet/neuralNet/neuralNet.cs:329-330 | a forward and a backpropagation pass turn the chain's state into Pass's |
| Networks.StepChain | neuralNet/neuralNet/neuralNet.cs:312-314 | one round turns the chain's state into Step's |
| Networks.ErrorChain | neuralNet/neuralNet/neuralNet.cs:343 | returns the output layer's error against the target |
| Networks.RoundChain | neuralNet/neuralNet/neuralNet.cs:310-315 | after i rounds, one more round gives Rounds after i + 1 |
| Networks.RepeatChain | neuralNet/neuralNet/neuralNet.cs:327-331 | after i passes, one more pass gives Repeat after i + 1 |
| Networks.RepeatPasses | neuralNet/neuralNet/neuralNet.cs:327-331 | the inner loop of batch training performs `rounds` uncommitted passes, none when rounds <= 0 |
| Networks.TrainExample | neuralNet/neuralNet/neuralNet.cs:325-333 | batch training on one example, its passes then one commit, advances BatchUpTo by one example |
| Networks.TrainRounds | neuralNet/neuralNet/neuralNet.cs:308-316 | the loop performs exactly `rounds` rounds of online training, none when rounds <= 0 |
| Networks.TrainExamples | neuralNet/neuralNet/neuralNet.cs:323-334 | the outer loop trains on every example in order |
| Networks.Evaluated | neuralNet/neuralNet/neuralNet.cs:352-357 | defines the state the batch error loop leaves after i examples: the forward pass on the last of them, or the starting state before any; `Networks.EvaluatedNext` states how it advances |
| Networks.EvaluatedNext | neuralNet/neuralNet/neuralNet.cs:353-357 | the error on example i after the earlier examples' forward passes is the network's error on it from the starting weights |
| Networks.ErrorStep | neuralNet/neuralNet/neuralNet.cs:355-356 | one loop iteration adds the next example's error to the sum |
| Networks.ErrorSumChain | neuralNet/neuralNet/neuralNet.cs:352-357 | the loop sums the error over every example, each after a forward pass on it |
| Networks.MeanErrorChain | neuralNet/neuralNet/neuralNet.cs:350-359 | the mean error over the batch, NaN and nothing changed for an empty batch |
| Networks.Network.constructor | neuralNet/neuralNet/neuralNet.cs:256-285 | a new network is a valid chain in the planned state, its first layer also its output layer when there are no hidden layers |
| Networks.Network.Load | neuralNet/neuralNet/neuralNet.cs:291-294 | a loaded network takes the loaded list, its first and last layers, and is valid exactly when they form a valid chain |
| Networks.Network.Deserialize | neuralNet/neuralNet/neuralNet.cs:385-387 | installs the loaded list; takes its first and last layers, or fails on an empty list leaving them as they were |
| Networks.Network.Forward | neuralNet/neuralNet/neuralNet.cs:299-302 | forward propagation keeps the network valid, turns its state into ForwardPass's and returns the output |
| Networks.Network.Train | neuralNet/neuralNet/neuralNet.cs:308-316 | online training keeps the network valid and turns its state into Rounds' |
| Networks.Network.TrainBatch | neuralNet/neuralNet/neuralNet.cs:323-334 | batch training keeps the network valid and turns its state into BatchUpTo's over all examples |
| Networks.Network.Error | neuralNet/neuralNet/neuralNet.cs:340-344 | the error on one example from the weights before the call, leaving the forward pass's caches |
| Networks.Network.ErrorBatch | neuralNet/neuralNet/neuralNet.cs:350-359 | the mean error over a batch from the weights before the call, NaN for an empty batch |

## Left out

- Activation: the logistic function 1 / (1 + e^-x) is a parameter `act` of the network, not a computed function, since `Math.Exp` has no counterpart over the reals. Only the range property, that it maps every real into (0, 1), is used, by `ForwardOutputRange`. The derivative y * (1 - y) is written out where the source uses it.
- Floating point: weights and values are mathematical reals, so there is no rounding, overflow or NaN propagation. The one NaN modelled is the 0/0 of an empty batch's mean error.
- Random initial weights: the uniform draw from [-0.1, 0.1] is a parameter `draw(m, i, j)`, giving weight (i, j) of layer m. The ±0.1 bound is not modelled.
- File I/O: `saveToFile`, `serialize` and the reading part of `deserialize` are not modelled.
  - `Networks.Network.Load` and `Networks.Network.Deserialize` take the list read from the file as a parameter.
  - A network loaded from a file may hold any list of layers. The model states that it is valid exactly when that list forms a valid chain; it does not prove that a saved network reloads as it was.
- Networks.Network.Load: requires a non-empty list. With an empty one the source's constructor throws, and a constructor that fails is not modelled.
- Exceptions: requires clauses exclude the calls on which the source throws. No error path for them is modelled, including the effect of the work done before the throw. The excluded calls are:
  - an input longer than a layer's columns, a target shorter than the output layer, and mismatched lengths in the error's vector subtraction, which the matrix library rejects;
  - a batch with fewer targets than examples (the `|ts| >= |xs|` of `Training.BatchFits` and `Training.ErrorFits`). The source's list indexer throws at `desiredOutputs[qq]` (neuralNet.cs line 330) or `desiredOutputs[i]` (line 356) only after the earlier examples have been trained and committed, or their forward passes run; the model does not capture that partial effect;
  - negative layer sizes: the sizes are `nat`, while the source takes `int` and the matrix library rejects a negative size (neuralNet.cs lines 34-35).
- Networks.NewHidden: allocation failure is not modelled. At `hiddenLayerNumbers` = int.MinValue the model builds 2^31 hidden layers. The source's loop allocates two matrices per layer and runs out of memory long before that.
- Layers.Initial: the column count `inputSize + 1` is exact. At `inputSize` = int.MaxValue the source's `int` sum wraps to a negative number and the matrix library throws; the model builds a layer with 2^31 columns instead.
- Layer sizes: every layer has at least one node, so `outputSize` and (with hidden layers) `hiddenLayerSize` must be at least 1. A zero-row matrix as `seq<seq<real>>` would lose its column count.
- Spec maps: `Training.PassOn`, `StepOn`, `CommitOn`, `BatchOn`, `OnlineOn`, `Training.ErrorSum` and `Networks.Evaluated` are defined on every chain. On a chain or batch that does not fit they leave it alone, or give 0; no call from the classes meets that case.
- Loops over the chain: the loops of `net`'s methods are written as methods over the layer list (`TrainRounds`, `TrainExamples`, `ErrorSumChain`, …) that the `Network` methods call, so that each loop's frame is the list of layers.
- TrainingFacts.BiasEntryDecays: the bias statement is proved per layer, given a cached input whose bias slot is 0. `TrainingFacts.BiasInputZero` supplies that slot for every layer of a forward pass, and `TrainingFacts.StepLayers` gives the layer-by-layer form of a round. The chain-level composition is left to these three lemmas.
- Concurrency: the user interface trains on a background thread. The network has no locking, and calls are modelled as strictly sequential.
