# NeuralNetwork: a verified model of the network orchestration layer

This project models `NeuralNetwork`, the class of a small feed-forward network
library that:

- builds a grid of neurons from a layer-size array and wires each layer to the one before it;
- presents new inputs and recomputes every neuron;
- attaches a training set after checking its arity;
- resets weights;
- runs the back-propagation training loop under the `INCREMENTAL` or `BATCH` learning method.

What a neuron computes (weighted sums, activation, delta rule, momentum) is
outside the model. The network only calls its neurons, so the model records
every such call in a ghost `trace` of the `NeuralNetwork` class, except the
wiring calls, which leave a `Source` tag on the neuron instead. Each
operation is proved to append exactly a trace defined by a function of the
layer sizes and the training set. Lemmas about those functions then state:

- the order of the calls;
- how often each neuron receives each call;
- when weight updates happen;
- which error is returned.

The files:

- `schedule.dfy` (module `Schedule`) holds:
  - the calls a network makes on a neuron (`Op`, `Call`);
  - the traces of a forward sweep (`Sweep`), a backward sweep (`BackwardSweep`) and the expected-output calls (`Expectations`);
  - call counting (`Occurrences`) and the error recorded in a trace (`ErrorSum`);
  - lemmas on order, counts and error sums.
- `training.dfy` (module `Training`) holds:
  - the learning method, training instances and training sets;
  - the oracle that stands for the neurons' error answers;
  - the trace of the training loop (`InstanceCalls`, `EpochCalls`, `TrainCalls`) and its returned error (`TrainError`);
  - the lemmas stating what training does.
- `network.dfy` (module `Network`) holds the class `NeuralNetwork`, with:
  - fields `inputs`, `neurons`, `trainingSet` and the ghost `trace`;
  - its invariant `Valid`;
  - its operations as methods with loops;
  - the module-level `Create`, which reports a refused structure instead of throwing.

A neuron is represented by what the network gives it: its input count, and
the source it reads from (`Unconnected`, the network's `InputValues`, or the
outputs of layer `l`, `LayerOutputs(l)`). The value that
`setExpectedOutput` returns comes from an oracle, a function of the epoch,
the instance index and the output-neuron index. Errors are summed as `real`.

Two behaviours of the code worth stating:

- Layer sizes of 0 are accepted. A negative size fails only because Java refuses to allocate an array of negative size, so the model refuses negative sizes with `NegativeLayerSize` and accepts zero.
- The backward pass calls `backPropagation` on every neuron, output layer included, from the last layer down to layer 0.

## Model

| member | source | states |
|---|---|---|
| Network.Create | trunk/neural_network/src/neural_network/NeuralNetwork.java:17-48 | Construction fails exactly when the structure has fewer than two entries (`TooFewLayers`) or a negative entry (`NegativeLayerSize`, checked second). Otherwise the new network is valid, has no training set and `structure[0]` inputs, all zero, and its layer sizes are `structure[1..]`. Its trace is one forward pass. |
| Network.NeuralNetwork.constructor | trunk/neural_network/src/neural_network/NeuralNetwork.java:17-48 | There are `structure.length - 1` layers, and layer `l` has `structure[l+1]` neurons with `structure[l]` inputs each. Inputs have length `structure[0]` and are all zero. The network is wired and has no training set. The constructor ends with one forward pass of `computeOutput` (line 47). |
| Network.CreateLayers | trunk/neural_network/src/neural_network/NeuralNetwork.java:22-33 | Builds `structure.length - 1` layers. Layer `l` holds `structure[l+1]` unconnected neurons with `structure[l]` inputs each. |
| Network.ConnectLayers | trunk/neural_network/src/neural_network/NeuralNetwork.java:38-40 | Every neuron of a layer `l >= 1` is connected to layer `l-1`. Layer 0, every layer size and every input count stay as they were. |
| Network.Zeros | trunk/neural_network/src/neural_network/NeuralNetwork.java:43-45 | The initial inputs: `n` values, all zero. |
| Network.NeuralNetwork.GetOutput | trunk/neural_network/src/neural_network/NeuralNetwork.java:66-69 | The output is the last layer (line 35). Its length is the last layer size, and its neurons have as many inputs as the layer before has neurons (or as the network has inputs, when there is only one layer). |
| Network.NeuralNetwork.SetInputs | trunk/neural_network/src/neural_network/NeuralNetwork.java:50-64 | On a length mismatch it fails with `InputArityMismatch` and changes nothing. Otherwise it stores the values and connects layer 0 to them, leaving the arity, layer sizes, input counts and training set as they were. It calls `computeOutput` once on every neuron in a forward sweep. |
| Network.NeuralNetwork.CallAll | trunk/neural_network/src/neural_network/NeuralNetwork.java:61-63 | The nested layer/neuron loop shared by the forward pass, `reset`, `resetDeltas` and `updateWeights`. It appends exactly a forward sweep of the given call. |
| Network.NeuralNetwork.SetTrainingSet | trunk/neural_network/src/neural_network/NeuralNetwork.java:71-79 | Fails with `TrainingInputsMismatch` on an input-arity mismatch, checked first. Fails with `TrainingOutputsMismatch` on an output-arity mismatch. On failure the previously attached set stays; on success the given set is stored. |
| Network.NeuralNetwork.Reset | trunk/neural_network/src/neural_network/NeuralNetwork.java:81-86 | Appends a forward sweep of `resetWeights`. It may change only the trace, so topology, inputs and training set are untouched. |
| Network.NeuralNetwork.ResetDeltas | trunk/neural_network/src/neural_network/NeuralNetwork.java:128-133 | Appends a forward sweep of `resetDelta`. |
| Network.NeuralNetwork.UpdateWeights | trunk/neural_network/src/neural_network/NeuralNetwork.java:135-140 | Appends a forward sweep of `updateWeights` with the given rate and momentum. |
| Network.NeuralNetwork.SetExpectedOutputs | trunk/neural_network/src/neural_network/NeuralNetwork.java:106-108 | Calls `setExpectedOutput` with expected value `expected[i]` on output neuron `i`, in index order. Adds the returned contributions to the running error. |
| Network.NeuralNetwork.BackPropagate | trunk/neural_network/src/neural_network/NeuralNetwork.java:110-113 | Appends a backward sweep of `backPropagation`: the last layer first, indices ascending within a layer. |
| Network.NeuralNetwork.TrainInstance | trunk/neural_network/src/neural_network/NeuralNetwork.java:99-118 | One loop body of train for instance `k`. Appends exactly `InstanceCalls` for that instance, leaves the instance's inputs presented, keeps the network valid and unchanged, and adds the instance's error. |
| Network.NeuralNetwork.TrainEpoch | trunk/neural_network/src/neural_network/NeuralNetwork.java:97-122 | One epoch: the error is reset to 0, every instance is processed in order, and under `BATCH` there is one update sweep. Appends exactly `EpochCalls` and returns the epoch's summed error. |
| Network.NeuralNetwork.Train | trunk/neural_network/src/neural_network/NeuralNetwork.java:88-126 | Fails with `NoTrainingData`, changing nothing, exactly when no set is attached or the set is empty. Otherwise it appends the calls of `max(iterations, 0)` epochs and returns the last epoch's error (0 when no epoch runs). The network stays valid, and the last instance's inputs stay presented. |
| Network.NeuralNetwork.RunEpochs | trunk/neural_network/src/neural_network/NeuralNetwork.java:93-125 | The `while(iterations-- > 0)` countdown: `max(iterations, 0)` epochs. Returns `TrainError`, and with `iterations <= 0` it makes no call and returns 0. |
| Network.StructureError | trunk/neural_network/src/neural_network/NeuralNetwork.java:19-43 | The error for a refused structure: `TooFewLayers` whenever there are fewer than two entries, because the check at line 19 comes before the allocations at lines 27 and 43. Otherwise `NegativeLayerSize`. |
| Schedule.Sweep | trunk/neural_network/src/neural_network/NeuralNetwork.java:61-63 | The reference trace of the nested forward loop, also written out at lines 83-85, 130-132 and 137-139. It holds every neuron of layer 0, then layer 1, and so on, with indices ascending within a layer. |
| Schedule.BackwardSweep | trunk/neural_network/src/neural_network/NeuralNetwork.java:111-113 | The reference trace of the backward loop: every neuron of the last layer, then the layer before, down to layer 0, with indices ascending within a layer. |
| Schedule.Expectations | trunk/neural_network/src/neural_network/NeuralNetwork.java:107-108 | The reference trace of the expected-output loop: output neuron `i` receives `expected[i]` and answers `errors[i]`, for `i` ascending. |
| Training.Epochs | trunk/neural_network/src/neural_network/NeuralNetwork.java:95 | How many times `while(iterations-- > 0)` runs: `iterations` when positive, otherwise 0. |
| Training.InstancesCalls | trunk/neural_network/src/neural_network/NeuralNetwork.java:99-118 | The reference trace of the first `k` passes of the instance loop: the per-instance traces in the set's order. |
| Training.InstancesError | trunk/neural_network/src/neural_network/NeuralNetwork.java:97-118 | The epoch's `error` after `k` instances: 0 (line 97) plus, for each instance in order, the sum of the output neurons' answers (line 108). |
| Schedule.AscendingCalls | trunk/neural_network/src/neural_network/NeuralNetwork.java:61-63 | A forward sweep makes only calls of its own kind, and only on neurons of the grid. |
| Schedule.DescendingCalls | trunk/neural_network/src/neural_network/NeuralNetwork.java:111-113 | A backward sweep makes only calls of its own kind, and only on neurons of the grid. |
| Schedule.ExpectationsAt | trunk/neural_network/src/neural_network/NeuralNetwork.java:107-108 | Expected-output call `i` passes `expected[i]` to output neuron `i` and records its answer. |
| Schedule.AscendingCount | trunk/neural_network/src/neural_network/NeuralNetwork.java:61-63 | A forward sweep calls every neuron of the grid exactly once and makes no other call. |
| Schedule.DescendingCount | trunk/neural_network/src/neural_network/NeuralNetwork.java:111-113 | A backward sweep calls every neuron of the grid exactly once and makes no other call. |
| Schedule.AscendingInForwardOrder | trunk/neural_network/src/neural_network/NeuralNetwork.java:61-63 | A forward sweep makes all calls of layer `l` before any of layer `l+1`, with indices ascending within a layer. |
| Schedule.DescendingInBackwardOrder | trunk/neural_network/src/neural_network/NeuralNetwork.java:111-113 | A backward sweep makes all calls of layer `l+1` before any of layer `l`, with indices ascending within a layer. |
| Schedule.ErrorSumWithoutExpectations | trunk/neural_network/src/neural_network/NeuralNetwork.java:101-117 | Calls other than `setExpectedOutput` contribute nothing to the error. |
| Schedule.ErrorSumOfExpectations | trunk/neural_network/src/neural_network/NeuralNetwork.java:107-108 | The error recorded by the expected-output calls is the sum of the neurons' answers. |
| Training.Errors | trunk/neural_network/src/neural_network/NeuralNetwork.java:108 | The answers of the output neurons to one instance: one per output neuron. |
| Training.SweepCount | trunk/neural_network/src/neural_network/NeuralNetwork.java:128-140 | `resetDeltas` and `updateWeights` reach every neuron exactly once. |
| Training.InstanceInPhaseOrder | trunk/neural_network/src/neural_network/NeuralNetwork.java:99-118 | For each instance the calls are all `resetDelta`, then all `computeOutput`, then all `setExpectedOutput`, then all `backPropagation`, then (`INCREMENTAL` only) all `updateWeights`. |
| Training.InstanceCallCount | trunk/neural_network/src/neural_network/NeuralNetwork.java:99-118 | For one instance, each neuron is reset, computed and back-propagated exactly once. It gets `updateWeights` once under `INCREMENTAL` and not at all under `BATCH`. Nothing else is called. |
| Training.InstancesCallCount | trunk/neural_network/src/neural_network/NeuralNetwork.java:99-118 | Over `k` instances, every count for a single instance is multiplied by `k`. |
| Training.EpochCallCount | trunk/neural_network/src/neural_network/NeuralNetwork.java:97-122 | In one epoch, `updateWeights` reaches each neuron once per instance under `INCREMENTAL` and once per epoch under `BATCH`. The other calls reach each neuron once per instance. |
| Training.CallsPerNeuron | trunk/neural_network/src/neural_network/NeuralNetwork.java:95-123 | Over `n` epochs, every neuron receives `n` times its per-epoch calls of every kind but `setExpectedOutput`. Weights are never reset, and no sweep call goes outside the grid. |
| Training.TrainCallsOnGrid | trunk/neural_network/src/neural_network/NeuralNetwork.java:95-123 | When the training set's output arity is the last layer's size, every call of `n` epochs, `setExpectedOutput` included, is on a neuron of the grid. |
| Network.TrainingStaysOnGrid | trunk/neural_network/src/neural_network/NeuralNetwork.java:88-126 | For a valid network with an attached set (whose arity `setTrainingSet` checked), no call train makes goes outside the grid. |
| Training.LearningMethod | trunk/neural_network/src/neural_network/NeuralNetwork.java:9 | The two learning methods, `Incremental` and `Batch`. |
| Training.InstanceCalls | trunk/neural_network/src/neural_network/NeuralNetwork.java:101-117 | The reference trace for one instance: a `resetDelta` sweep, a `computeOutput` sweep, `setExpectedOutput` on each output neuron, a backward `backPropagation` sweep, and an `updateWeights` sweep only under `INCREMENTAL`. |
| Training.EpochCalls | trunk/neural_network/src/neural_network/NeuralNetwork.java:97-122 | The reference trace for one epoch: every instance in order, then one `updateWeights` sweep only under `BATCH`. |
| Training.TrainCalls | trunk/neural_network/src/neural_network/NeuralNetwork.java:95-123 | The reference trace for `n` epochs: the epochs' traces in order. |
| Training.TrainError | trunk/neural_network/src/neural_network/NeuralNetwork.java:93-125 | The reference result: 0 when no epoch runs, otherwise the sum of the answers of the last epoch's instances. |
| Training.OneInstanceMethodsAgree | trunk/neural_network/src/neural_network/NeuralNetwork.java:116-122 | With a one-instance training set, `INCREMENTAL` and `BATCH` produce identical call traces for any number of epochs. |
| Training.InstanceErrorInTrace | trunk/neural_network/src/neural_network/NeuralNetwork.java:101-117 | The error added for one instance is the sum of the answers recorded in its trace. |
| Training.InstancesErrorInTrace | trunk/neural_network/src/neural_network/NeuralNetwork.java:97-118 | The error accumulated over the first `k` instances equals the error recorded in their calls. |
| Training.LastEpochError | trunk/neural_network/src/neural_network/NeuralNetwork.java:93-125 | After `n > 0` epochs, the returned error is exactly the error recorded by the last epoch's calls. |
| Training.LastEpochOnly | trunk/neural_network/src/neural_network/NeuralNetwork.java:93-125 | The returned error does not depend on what the neurons answered in earlier epochs. |
| Training.SameEpochError | trunk/neural_network/src/neural_network/NeuralNetwork.java:97-108 | An epoch's error depends only on the neurons' answers in that epoch. |

## Left out

- The `Neuron` class (weighted sum, activation, delta rule, momentum, random weight initialisation) is not part of this model. A neuron is its input count plus its source, and the network's calls on it are trace entries.
- Floating-point arithmetic: the error is summed as `real`, so no rounding is modelled.
- `SimpleValue`, `IValue`, `ITrainingInstance` and `TrainingSet` are not part of this model. A training set is its declared arity plus a sequence of (inputs, outputs) instances.
- TrainingSet: every instance is assumed to have the arity the set declares (the subset type `Training.TrainingSet`). In the code, an instance with the wrong number of inputs makes `setInputs` throw in the middle of an epoch. One with fewer outputs than the output layer makes the expected-output loop (lines 107-108) index past its end. One with more outputs is used only up to the output layer's size. None of these paths is modelled.
- Training-set aliasing: `setTrainingSet` stores a reference (line 78), and `train` reads the set's instance count and instances when it runs (lines 90 and 99). The model stores the set as a value, so changes a caller makes to an attached set after attaching it are not modelled.
- Aliasing: the caller's input array becomes the network's own (line 55), and `getOutput` hands out the output layer itself (line 68). The model keeps values, not shared arrays, so a caller changing them afterwards is not modelled. `outputs` is the function `GetOutput` instead of a field holding an alias.
- Wiring by object reference (`setInputs` on a neuron, lines 40 and 58) is modelled by the `Source` tag it leaves on the neuron.
- The 2-D `neurons` array is a sequence of sequences that the methods reassign.
- Exceptions are `Failed`/`Err` results carrying an `Error` value, not exception types and messages.
- Network.NeuralNetwork.constructor: requires a valid structure, because a constructor cannot return an error. `Network.Create` is the operation that checks the structure and reports `TooFewLayers` or `NegativeLayerSize`.
- Null arguments cannot be expressed. In the code:
  - `new NeuralNetwork(null)` throws `NullPointerException` at line 19;
  - `setTrainingSet(null)` throws `NullPointerException` at line 73;
  - `setInputs(null)` throws at line 52;
  - a `null` learning method makes both tests at lines 116 and 121 false, so `train` runs all its epochs without any `updateWeights` call.
- Network.NeuralNetwork.Reset, SetTrainingSet and Train require the class invariant `Valid`, and SetInputs requires its part `Shaped`, which leaves out the wiring of layer 0. Every constructed network satisfies both, so calls on a half-built object are not modelled.
- The epoch counter passed to the oracle and the helper methods (`CreateLayers`, `ConnectLayers`, `Zeros`, `CallAll`, `SetExpectedOutputs`, `BackPropagate`, `TrainInstance`, `TrainEpoch`, `RunEpochs`) are sections of the constructor, `setInputs` and `train` given their own contracts. They add no behaviour.
- `int` overflow cannot occur in the modelled loops; the iteration count is an unbounded `int`.
