/** A feed-forward network of opaque neurons: construction and wiring of the
    layers, the forward pass on new inputs, attaching a training set,
    resetting weights, and the training loop.

    What a neuron computes is not modelled.  The network keeps for each
    neuron what it gave it (its input count and the source it reads from),
    and appends every call it makes on a neuron to the ghost `trace`. */
module Network {
  import opened Schedule
  import opened Training

  /** The conditions under which the network refuses an operation. */
  datatype Error =
    | TooFewLayers              // fewer than two entries in the structure
    | NegativeLayerSize         // an array of negative size would be allocated
    | InputArityMismatch        // setInputs with the wrong number of values
    | TrainingInputsMismatch    // training set with the wrong input arity
    | TrainingOutputsMismatch   // training set with the wrong output arity
    | NoTrainingData            // train without a non-empty training set

  datatype Status = Done | Failed(error: Error)

  datatype Result<T> = Ok(value: T) | Err(error: Error)

  datatype Option<T> = None | Some(value: T)

  /** Where a neuron reads its inputs from. */
  datatype Source = Unconnected | InputValues | LayerOutputs(layer: nat)

  /** What the network knows of a neuron: the input count it was built with
      and the source it was connected to. */
  datatype Neuron = Neuron(numInputs: nat, source: Source)

  /** The sizes of the layers of a grid of neurons. */
  function SizesOf(grid: seq<seq<Neuron>>): (r: seq<nat>)
    ensures |r| == |grid|
    ensures forall l | 0 <= l < |grid| :: r[l] == |grid[l]|
  {
    if grid == [] then [] else SizesOf(grid[..|grid| - 1]) + [|grid[|grid| - 1]|]
  }

  /** A structure the constructor accepts: at least an input layer and one
      neuron layer, and no negative layer size. */
  predicate ValidStructure(structure: seq<int>) {
    |structure| >= 2 && forall k | 0 <= k < |structure| :: structure[k] >= 0
  }

  /** The error the constructor raises for a structure it refuses. */
  function StructureError(structure: seq<int>): Error {
    if |structure| < 2 then TooFewLayers else NegativeLayerSize
  }

  /** The grid is non-empty; every neuron has as many inputs as the layer it
      reads from has values; layers after the first read from the previous
      layer. */
  ghost predicate Wired(numInputs: nat, grid: seq<seq<Neuron>>) {
    |grid| >= 1
    && (forall l, i | 0 <= l < |grid| && 0 <= i < |grid[l]| ::
          grid[l][i].numInputs == if l == 0 then numInputs else |grid[l - 1]|)
    && (forall l, i | 1 <= l < |grid| && 0 <= i < |grid[l]| ::
          grid[l][i].source == LayerOutputs(l - 1))
  }

  /** An attached training set has the network's input and output arity. */
  ghost predicate Fits(t: Option<TrainingSet>, numInputs: nat, grid: seq<seq<Neuron>>)
    requires |grid| >= 1
  {
    t.Some? ==> t.value.numInputs == numInputs && t.value.numOutputs == |grid[|grid| - 1]|
  }

  /** Every neuron of the first layer reads from the input values. */
  ghost predicate FirstLayerOnInputs(grid: seq<seq<Neuron>>)
    requires |grid| >= 1
  {
    forall i | 0 <= i < |grid[0]| :: grid[0][i].source == InputValues
  }

  /** The layers of a network of the given structure: layer l holds
      structure[l + 1] neurons with structure[l] inputs each, none connected
      yet. */
  method CreateLayers(structure: seq<int>) returns (grid: seq<seq<Neuron>>)
    requires ValidStructure(structure)
    ensures |grid| == |structure| - 1
    ensures forall l | 0 <= l < |grid| :: |grid[l]| == structure[l + 1]
    ensures forall l, i | 0 <= l < |grid| && 0 <= i < |grid[l]| :: grid[l][i] == Neuron(structure[l], Unconnected)
  {
    grid := [];
    var layer := 0;
    while layer < |structure| - 1
      invariant 0 <= layer <= |structure| - 1
      invariant |grid| == layer
      invariant forall l | 0 <= l < layer :: |grid[l]| == structure[l + 1]
      invariant forall l, i | 0 <= l < layer && 0 <= i < |grid[l]| :: grid[l][i] == Neuron(structure[l], Unconnected)
    {
      var row: seq<Neuron> := [];
      var numInputs := structure[layer];
      var neuron := 0;
      while neuron < structure[layer + 1]
        invariant 0 <= neuron <= structure[layer + 1]
        invariant |row| == neuron
        invariant forall i | 0 <= i < neuron :: row[i] == Neuron(numInputs, Unconnected)
      {
        row := row + [Neuron(numInputs, Unconnected)];
        neuron := neuron + 1;
      }
      grid := grid + [row];
      layer := layer + 1;
    }
  }

  /** Connects every neuron of every layer after the first to the layer
      before it, leaving the first layer and the input counts as they are. */
  method ConnectLayers(grid: seq<seq<Neuron>>) returns (wired: seq<seq<Neuron>>)
    ensures SizesOf(wired) == SizesOf(grid)
    ensures forall i | 0 < |grid| && 0 <= i < |grid[0]| :: wired[0][i] == grid[0][i]
    ensures forall l, i | 1 <= l < |grid| && 0 <= i < |grid[l]| ::
              wired[l][i] == grid[l][i].(source := LayerOutputs(l - 1))
  {
    wired := grid;
    var layer := 1;
    while layer < |wired|
      invariant 1 <= layer <= |wired| || |wired| <= 1
      invariant SizesOf(wired) == SizesOf(grid)
      invariant forall i | 0 < |grid| && 0 <= i < |grid[0]| :: wired[0][i] == grid[0][i]
      invariant forall l, i | 1 <= l < layer && l < |grid| && 0 <= i < |grid[l]| ::
                  wired[l][i] == grid[l][i].(source := LayerOutputs(l - 1))
      invariant forall l, i | layer <= l < |grid| && 0 <= i < |grid[l]| :: wired[l][i] == grid[l][i]
    {
      var row := wired[layer];
      var neuron := 0;
      while neuron < |row|
        invariant 0 <= neuron <= |row| == |grid[layer]|
        invariant forall i | 0 <= i < neuron :: row[i] == grid[layer][i].(source := LayerOutputs(layer - 1))
        invariant forall i | neuron <= i < |row| :: row[i] == grid[layer][i]
      {
        row := row[neuron := row[neuron].(source := LayerOutputs(layer - 1))];
        neuron := neuron + 1;
      }
      wired := wired[layer := row];
      layer := layer + 1;
    }
  }

  /** n input values, all zero. */
  method Zeros(n: int) returns (values: seq<real>)
    requires n >= 0
    ensures |values| == n && forall k | 0 <= k < n :: values[k] == 0.0
  {
    values := [];
    while |values| < n
      invariant |values| <= n
      invariant forall k | 0 <= k < |values| :: values[k] == 0.0
    {
      values := values + [0.0];
    }
  }

  class NeuralNetwork {
    var inputs: seq<real>
    var neurons: seq<seq<Neuron>>
    var trainingSet: Option<TrainingSet>
    /** Every call made on a neuron so far, in order. */
    ghost var trace: seq<Call>

    /** The network's invariant without the first layer's connection, which
        setInputs makes. */
    ghost predicate Shaped()
      reads this`inputs, this`neurons, this`trainingSet
    {
      Wired(|inputs|, neurons) && Fits(trainingSet, |inputs|, neurons)
    }

    /** Shaped, and the first layer reads from the input values. */
    ghost predicate Valid()
      reads this`inputs, this`neurons, this`trainingSet
    {
      Shaped() && FirstLayerOnInputs(neurons)
    }

    /** The sizes of the neuron layers. */
    function Sizes(): (r: Layers)
      reads this`neurons
      requires |neurons| >= 1
    {
      SizesOf(neurons)
    }

    /** The output layer. */
    function GetOutput(): (o: seq<Neuron>)
      reads this`inputs, this`neurons, this`trainingSet
      requires Valid()
      ensures |o| == Sizes()[|neurons| - 1]
      ensures forall i | 0 <= i < |o| :: o[i].numInputs == (if |neurons| == 1 then |inputs| else Sizes()[|neurons| - 2])
    {
      neurons[|neurons| - 1]
    }

    /** Builds the layers of a valid structure, wires them, sets all inputs
        to zero and runs the first forward pass. */
    constructor (structure: seq<int>)
      requires ValidStructure(structure)
      ensures Valid()
      ensures |inputs| == structure[0] && forall k | 0 <= k < |inputs| :: inputs[k] == 0.0
      ensures |neurons| == |structure| - 1
      ensures forall l | 0 <= l < |neurons| :: |neurons[l]| == structure[l + 1]
      ensures forall l, i | 0 <= l < |neurons| && 0 <= i < |neurons[l]| :: neurons[l][i].numInputs == structure[l]
      ensures trainingSet == None
      ensures trace == Sweep(ComputeOutput, Sizes())
    {
      var grid := CreateLayers(structure);
      grid := ConnectLayers(grid);
      var values := Zeros(structure[0]);
      neurons := grid;
      inputs := values;
      trainingSet := None;
      trace := [];
      new;
      var status := SetInputs(values);
    }

    /** Calls `op` on every neuron, layer by layer from the first. */
    method CallAll(op: Op)
      requires |neurons| >= 1
      modifies this`trace
      ensures trace == old(trace) + Sweep(op, Sizes())
    {
      ghost var sizes := Sizes();
      var layer := 0;
      while layer < |neurons|
        invariant 0 <= layer <= |neurons|
        invariant trace == old(trace) + Ascending(op, sizes, layer)
      {
        ghost var done := trace;
        var neuron := 0;
        while neuron < |neurons[layer]|
          invariant 0 <= neuron <= |neurons[layer]|
          invariant trace == done + LayerCalls(op, layer, neuron)
        {
          AppendAssoc(done, LayerCalls(op, layer, neuron), [Call(op, layer, neuron)]);
          trace := trace + [Call(op, layer, neuron)];
          neuron := neuron + 1;
        }
        AppendAssoc(old(trace), Ascending(op, sizes, layer), LayerCalls(op, layer, sizes[layer]));
        layer := layer + 1;
      }
    }

    /** Replaces the inputs, connects the first layer to them and recomputes
        every neuron's output, layer by layer from the first.  Fails, changing
        nothing, when the number of values differs from the current one. */
    method SetInputs(values: seq<real>) returns (status: Status)
      requires Shaped()
      modifies this`inputs, this`neurons, this`trace
      ensures Shaped() && Sizes() == old(Sizes()) && trainingSet == old(trainingSet)
      ensures status == (if |values| == old(|inputs|) then Done else Failed(InputArityMismatch))
      ensures status.Failed? ==> unchanged(this)
      ensures status == Done ==> Valid() && inputs == values
      ensures status == Done ==> trace == old(trace) + Sweep(ComputeOutput, Sizes())
      ensures status == Done ==> forall l, i | 0 <= l < |neurons| && 0 <= i < |neurons[l]| ::
                neurons[l][i].numInputs == old(neurons)[l][i].numInputs
      ensures old(Valid()) ==> neurons == old(neurons)
    {
      if |values| != |inputs| {
        return Failed(InputArityMismatch);
      }
      inputs := values;

      var first := neurons[0];
      var i := 0;
      while i < |first|
        invariant 0 <= i <= |first| == |neurons[0]|
        invariant forall j | 0 <= j < i :: first[j] == neurons[0][j].(source := InputValues)
        invariant forall j | i <= j < |first| :: first[j] == neurons[0][j]
      {
        first := first[i := first[i].(source := InputValues)];
        i := i + 1;
      }
      assert old(Valid()) ==> first == neurons[0];
      neurons := neurons[0 := first];

      CallAll(ComputeOutput);
      status := Done;
    }

    /** Attaches a training set whose arity matches the network's, keeping the
        previous one when it does not. */
    method SetTrainingSet(t: TrainingSet) returns (status: Status)
      requires Valid()
      modifies this`trainingSet
      ensures Valid()
      ensures status == (if t.numInputs != |inputs| then Failed(TrainingInputsMismatch)
                         else if t.numOutputs != |GetOutput()| then Failed(TrainingOutputsMismatch)
                         else Done)
      ensures trainingSet == if status == Done then Some(t) else old(trainingSet)
    {
      if t.numInputs != |inputs| {
        return Failed(TrainingInputsMismatch);
      }
      if t.numOutputs != |neurons[|neurons| - 1]| {
        return Failed(TrainingOutputsMismatch);
      }
      trainingSet := Some(t);
      status := Done;
    }

    /** Resets the weights of every neuron. */
    method Reset()
      requires Valid()
      modifies this`trace
      ensures trace == old(trace) + Sweep(ResetWeights, Sizes())
    {
      CallAll(ResetWeights);
    }

    /** Resets the delta of every neuron. */
    method ResetDeltas()
      requires |neurons| >= 1
      modifies this`trace
      ensures trace == old(trace) + Sweep(ResetDelta, Sizes())
    {
      CallAll(ResetDelta);
    }

    /** Tells every neuron to apply its accumulated delta. */
    method UpdateWeights(learningRate: real, momentum: real)
      requires |neurons| >= 1
      modifies this`trace
      ensures trace == old(trace) + Sweep(Op.UpdateWeights(learningRate, momentum), Sizes())
    {
      CallAll(Op.UpdateWeights(learningRate, momentum));
    }

    /** Sets the expected value of every output neuron, adding the error
        contributions they return to `error` one by one. */
    method SetExpectedOutputs(error: real, expected: seq<real>, oracle: Oracle, epoch: nat, k: nat) returns (total: real)
      requires |neurons| >= 1 && |expected| == |neurons[|neurons| - 1]|
      modifies this`trace
      ensures trace == old(trace) + Expectations(|neurons| - 1, expected, Errors(oracle, epoch, k, |expected|), |expected|)
      ensures total == error + Sum(Errors(oracle, epoch, k, |expected|))
    {
      ghost var errors := Errors(oracle, epoch, k, |expected|);
      var last := |neurons| - 1;
      total := error;
      var neuron := 0;
      while neuron < |neurons[last]|
        invariant 0 <= neuron <= |expected|
        invariant trace == old(trace) + Expectations(last, expected, errors, neuron)
        invariant total == error + Sum(errors[..neuron])
      {
        var contribution := oracle(epoch, k, neuron);
        trace := trace + [Call(SetExpectedOutput(expected[neuron], contribution), last, neuron)];
        assert errors[..neuron + 1] == errors[..neuron] + [contribution];
        total := total + contribution;
        neuron := neuron + 1;
      }
      assert errors[..|expected|] == errors;
    }

    /** Back-propagates deltas through every neuron, from the last layer down
        to the first. */
    method BackPropagate()
      requires |neurons| >= 1
      modifies this`trace
      ensures trace == old(trace) + BackwardSweep(BackPropagation, Sizes())
    {
      ghost var sizes := Sizes();
      var layer := |neurons| - 1;
      while layer >= 0
        invariant -1 <= layer < |neurons|
        invariant trace == old(trace) + Descending(BackPropagation, sizes, layer + 1)
      {
        ghost var done := trace;
        var neuron := 0;
        while neuron < |neurons[layer]|
          invariant 0 <= neuron <= |neurons[layer]|
          invariant trace == done + LayerCalls(BackPropagation, layer, neuron)
        {
          AppendAssoc(done, LayerCalls(BackPropagation, layer, neuron), [Call(BackPropagation, layer, neuron)]);
          trace := trace + [Call(BackPropagation, layer, neuron)];
          neuron := neuron + 1;
        }
        AppendAssoc(old(trace), Descending(BackPropagation, sizes, layer + 1), LayerCalls(BackPropagation, layer, sizes[layer]));
        layer := layer - 1;
      }
    }

    /** One pass of the training loop over instance k of the attached set:
        reset the deltas, present the inputs, set the expected outputs while
        adding up their error, back-propagate, and under the incremental
        method update the weights at once. */
    method TrainInstance(data: TrainingSet, k: nat, learningMethod: LearningMethod, learningRate: real, momentum: real,
                         oracle: Oracle, epoch: nat, error: real, ghost run: Run) returns (total: real)
      requires Valid() && trainingSet == Some(data) && k < |data.instances|
      requires run == Run(Sizes(), data, learningMethod, learningRate, momentum, oracle)
      modifies this`inputs, this`neurons, this`trace
      ensures Valid() && neurons == old(neurons)
      ensures inputs == data.instances[k].inputs
      ensures trace == old(trace) + InstanceCalls(run, epoch, k)
      ensures total == error + Sum(Errors(oracle, epoch, k, |data.instances[k].outputs|))
    {
      ghost var sizes := run.sizes;
      var instance := data.instances[k];
      ghost var start := trace;
      ghost var reset, forward := Sweep(ResetDelta, sizes), Sweep(ComputeOutput, sizes);
      ghost var targets := Expectations(|sizes| - 1, instance.outputs, Errors(oracle, epoch, k, |instance.outputs|), |instance.outputs|);
      ghost var back := BackwardSweep(BackPropagation, sizes);
      ResetDeltas();
      assert trace == start + reset;
      assert |instance.inputs| == data.numInputs == |inputs|;
      var status := SetInputs(instance.inputs);
      assert Valid() && neurons == old(neurons);
      AppendAssoc(start, reset, forward);
      assert trace == start + (reset + forward);
      total := SetExpectedOutputs(error, instance.outputs, oracle, epoch, k);
      AppendAssoc(start, reset + forward, targets);
      assert trace == start + (reset + forward + targets);
      BackPropagate();
      AppendAssoc(start, reset + forward + targets, back);
      assert trace == start + (reset + forward + targets + back);
      ghost var update := if learningMethod == Incremental then Sweep(Op.UpdateWeights(learningRate, momentum), sizes) else [];
      if learningMethod == Incremental {
        UpdateWeights(learningRate, momentum);
      }
      AppendAssoc(start, reset + forward + targets + back, update);
      assert InstanceCalls(run, epoch, k) == reset + forward + targets + back + update;
    }

    /** One epoch of the training loop: every instance in order, then under
        the batch method one weight update.  Returns the error the epoch
        accumulated. */
    method TrainEpoch(data: TrainingSet, learningMethod: LearningMethod, learningRate: real, momentum: real,
                      oracle: Oracle, epoch: nat, ghost run: Run) returns (error: real)
      requires Valid() && trainingSet == Some(data) && |data.instances| > 0
      requires run == Run(Sizes(), data, learningMethod, learningRate, momentum, oracle)
      modifies this`inputs, this`neurons, this`trace
      ensures Valid() && neurons == old(neurons)
      ensures inputs == data.instances[|data.instances| - 1].inputs
      ensures trace == old(trace) + EpochCalls(run, epoch)
      ensures error == InstancesError(run, epoch, |data.instances|)
    {
      error := 0.0;
      var k := 0;
      while k < |data.instances|
        invariant 0 <= k <= |data.instances|
        invariant Valid() && neurons == old(neurons)
        invariant trace == old(trace) + InstancesCalls(run, epoch, k)
        invariant error == InstancesError(run, epoch, k)
        invariant k > 0 ==> inputs == data.instances[k - 1].inputs
      {
        error := TrainInstance(data, k, learningMethod, learningRate, momentum, oracle, epoch, error, run);
        AppendAssoc(old(trace), InstancesCalls(run, epoch, k), InstanceCalls(run, epoch, k));
        k := k + 1;
      }
      ghost var update := if learningMethod == Batch then Sweep(Op.UpdateWeights(learningRate, momentum), run.sizes) else [];
      if learningMethod == Batch {
        UpdateWeights(learningRate, momentum);
      }
      AppendAssoc(old(trace), InstancesCalls(run, epoch, k), update);
    }

    /** Trains for `iterations` epochs over the attached training set and
        returns the error accumulated in the last epoch (0 when no epoch
        runs).  Fails, changing nothing, without a non-empty training set. */
    method Train(learningMethod: LearningMethod, iterations: int, learningRate: real, momentum: real, oracle: Oracle)
      returns (r: Result<real>)
      requires Valid()
      modifies this`inputs, this`neurons, this`trace
      ensures Valid() && neurons == old(neurons)
      ensures r.Err? <==> trainingSet.None? || |trainingSet.value.instances| == 0
      ensures r.Err? ==> r.error == NoTrainingData && unchanged(this)
      ensures r.Ok? ==>
        var run := Run(Sizes(), trainingSet.value, learningMethod, learningRate, momentum, oracle);
        trace == old(trace) + TrainCalls(run, Epochs(iterations))
        && r.value == TrainError(run, Epochs(iterations))
        && inputs == if iterations > 0 then run.trainingSet.instances[|run.trainingSet.instances| - 1].inputs else old(inputs)
    {
      if trainingSet.None? || |trainingSet.value.instances| == 0 {
        return Err(NoTrainingData);
      }
      var data := trainingSet.value;
      ghost var run := Run(Sizes(), data, learningMethod, learningRate, momentum, oracle);
      var error := RunEpochs(data, learningMethod, iterations, learningRate, momentum, oracle, run);
      return Ok(error);
    }

    /** The loop of train: `iterations` epochs, counting down. */
    method RunEpochs(data: TrainingSet, learningMethod: LearningMethod, iterations: int, learningRate: real, momentum: real,
                     oracle: Oracle, ghost run: Run) returns (error: real)
      requires Valid() && trainingSet == Some(data) && |data.instances| > 0
      requires run == Run(Sizes(), data, learningMethod, learningRate, momentum, oracle)
      modifies this`inputs, this`neurons, this`trace
      ensures Valid() && neurons == old(neurons)
      ensures trace == old(trace) + TrainCalls(run, Epochs(iterations))
      ensures error == TrainError(run, Epochs(iterations))
      ensures inputs == if iterations > 0 then data.instances[|data.instances| - 1].inputs else old(inputs)
    {
      error := 0.0;
      var remaining := iterations;
      var epoch: nat := 0;  // epochs completed; only the oracle reads it
      while remaining > 0
        invariant Valid() && neurons == old(neurons)
        invariant iterations > 0 ==> 0 <= remaining && epoch == iterations - remaining
        invariant iterations <= 0 ==> epoch == 0
        invariant trace == old(trace) + TrainCalls(run, epoch)
        invariant error == TrainError(run, epoch)
        invariant inputs == if epoch == 0 then old(inputs) else data.instances[|data.instances| - 1].inputs
        decreases remaining
      {
        remaining := remaining - 1;
        error := TrainEpoch(data, learningMethod, learningRate, momentum, oracle, epoch, run);
        AppendAssoc(old(trace), TrainCalls(run, epoch), EpochCalls(run, epoch));
        epoch := epoch + 1;
      }
    }
  }

  /** Training a valid network on its attached set makes no call on a neuron
      outside its grid, `setExpectedOutput` included. */
  lemma TrainingStaysOnGrid(network: NeuralNetwork, learningMethod: LearningMethod, learningRate: real,
                            momentum: real, oracle: Oracle, n: nat)
    requires network.Valid() && network.trainingSet.Some?
    ensures var run := Run(network.Sizes(), network.trainingSet.value, learningMethod, learningRate, momentum, oracle);
            AllOnGrid(TrainCalls(run, n), network.Sizes())
  {
    var run := Run(network.Sizes(), network.trainingSet.value, learningMethod, learningRate, momentum, oracle);
    TrainCallsOnGrid(run, n);
  }

  /** Builds a network, or reports why the structure is refused. */
  method Create(structure: seq<int>) returns (r: Result<NeuralNetwork>)
    ensures r.Err? <==> !ValidStructure(structure)
    ensures r.Err? ==> r.error == StructureError(structure)
    ensures r.Ok? ==> fresh(r.value) && r.value.Valid() && r.value.trainingSet == None
    ensures r.Ok? ==> |r.value.inputs| == structure[0] && r.value.Sizes() == structure[1..]
    ensures r.Ok? ==> forall k | 0 <= k < |r.value.inputs| :: r.value.inputs[k] == 0.0
    ensures r.Ok? ==> r.value.trace == Sweep(ComputeOutput, r.value.Sizes())
  {
    if |structure| < 2 {
      return Err(TooFewLayers);
    }
    if exists k | 0 <= k < |structure| :: structure[k] < 0 {
      return Err(NegativeLayerSize);
    }
    var network := new NeuralNetwork(structure);
    r := Ok(network);
  }
}
