/** The training loop of a NeuralNetwork, specified by the calls it makes on
    the neurons and by the error it returns. */
module Training {
  import opened Schedule

  /** When weight updates are applied: after every instance, or once per epoch. */
  datatype LearningMethod = Incremental | Batch

  /** One training instance: an input vector and the expected output vector. */
  datatype Instance = Instance(inputs: seq<real>, outputs: seq<real>)

  /** A training set with its declared input and output arity and its
      instances in iteration order. */
  datatype TrainingData = TrainingData(numInputs: nat, numOutputs: nat, instances: seq<Instance>)
  {
    /** Every instance has the arity the set declares. */
    predicate Consistent() {
      forall k | 0 <= k < |instances| ::
        |instances[k].inputs| == numInputs && |instances[k].outputs| == numOutputs
    }
  }

  type TrainingSet = t: TrainingData | t.Consistent() witness TrainingData(0, 0, [])

  /** The error contribution output neuron i returns from `SetExpectedOutput`
      for instance k of epoch e. */
  type Oracle = (nat, nat, nat) -> real

  /** The fixed parameters of one call of train: the neuron-layer sizes, the
      attached training set, the method, the learning rate, the momentum and
      what the output neurons answer. */
  datatype Run = Run(sizes: Layers, trainingSet: TrainingSet, learningMethod: LearningMethod,
                     learningRate: real, momentum: real, oracle: Oracle)

  /** The number of epochs train runs for a given iteration count. */
  function Epochs(iterations: int): nat {
    if iterations > 0 then iterations else 0
  }

  /** The error contributions of the n output neurons for instance k of epoch e. */
  function Errors(oracle: Oracle, e: nat, k: nat, n: nat): (r: seq<real>)
    ensures |r| == n
  {
    seq(n, (i: nat) => oracle(e, k, i))
  }

  /** The calls train makes for instance k of epoch e. */
  function InstanceCalls(run: Run, e: nat, k: nat): seq<Call>
    requires k < |run.trainingSet.instances|
  {
    var x := run.trainingSet.instances[k];
    Sweep(ResetDelta, run.sizes)
    + Sweep(ComputeOutput, run.sizes)
    + Expectations(|run.sizes| - 1, x.outputs, Errors(run.oracle, e, k, |x.outputs|), |x.outputs|)
    + BackwardSweep(BackPropagation, run.sizes)
    + (if run.learningMethod == Incremental then Sweep(UpdateWeights(run.learningRate, run.momentum), run.sizes) else [])
  }

  /** The calls train makes for the first k instances of epoch e. */
  function InstancesCalls(run: Run, e: nat, k: nat): seq<Call>
    requires k <= |run.trainingSet.instances|
  {
    if k == 0 then [] else InstancesCalls(run, e, k - 1) + InstanceCalls(run, e, k - 1)
  }

  /** The calls train makes in epoch e. */
  function EpochCalls(run: Run, e: nat): seq<Call> {
    InstancesCalls(run, e, |run.trainingSet.instances|)
    + (if run.learningMethod == Batch then Sweep(UpdateWeights(run.learningRate, run.momentum), run.sizes) else [])
  }

  /** The calls train makes in its first n epochs. */
  function TrainCalls(run: Run, n: nat): seq<Call> {
    if n == 0 then [] else TrainCalls(run, n - 1) + EpochCalls(run, n - 1)
  }

  /** The error accumulated over the first k instances of epoch e. */
  function InstancesError(run: Run, e: nat, k: nat): real
    requires k <= |run.trainingSet.instances|
  {
    if k == 0 then 0.0
    else InstancesError(run, e, k - 1) + Sum(Errors(run.oracle, e, k - 1, |run.trainingSet.instances[k - 1].outputs|))
  }

  /** The value train returns after n epochs: the error of the last one. */
  function TrainError(run: Run, n: nat): real {
    if n == 0 then 0.0 else InstancesError(run, n - 1, |run.trainingSet.instances|)
  }

  /** The position of an operation in the per-instance sequence of train. */
  function Phase(op: Op): nat {
    match op
    case ResetDelta => 0
    case ComputeOutput => 1
    case SetExpectedOutput(_, _) => 2
    case BackPropagation => 3
    case UpdateWeights(_, _) => 4
    case ResetWeights => 5
  }

  predicate InPhaseOrder(s: seq<Call>) {
    forall p, q | 0 <= p < q < |s| :: Phase(s[p].op) <= Phase(s[q].op)
  }

  lemma PhaseOrderAppend(a: seq<Call>, b: seq<Call>, ph: nat)
    requires InPhaseOrder(a) && InPhaseOrder(b)
    requires forall c | c in a :: Phase(c.op) <= ph
    requires forall c | c in b :: ph <= Phase(c.op)
    ensures InPhaseOrder(a + b)
  {
  }

  lemma OnePhase(s: seq<Call>, ph: nat)
    requires forall c | c in s :: Phase(c.op) == ph
    ensures InPhaseOrder(s)
  {
  }

  /** For every instance, all deltas are reset before the forward pass, the
      forward pass ends before the first expected output is set, every
      expected output is set before back-propagation starts, and weights are
      updated (incremental method) only after back-propagation. */
  lemma InstanceInPhaseOrder(run: Run, e: nat, k: nat)
    requires k < |run.trainingSet.instances|
    ensures InPhaseOrder(InstanceCalls(run, e, k))
  {
    var x := run.trainingSet.instances[k];
    var a := Sweep(ResetDelta, run.sizes);
    var b := Sweep(ComputeOutput, run.sizes);
    var c := Expectations(|run.sizes| - 1, x.outputs, Errors(run.oracle, e, k, |x.outputs|), |x.outputs|);
    ExpectationsAt(|run.sizes| - 1, x.outputs, Errors(run.oracle, e, k, |x.outputs|), |x.outputs|);
    var d := BackwardSweep(BackPropagation, run.sizes);
    var u := if run.learningMethod == Incremental then Sweep(UpdateWeights(run.learningRate, run.momentum), run.sizes) else [];
    AscendingCalls(ResetDelta, run.sizes, |run.sizes|);
    AscendingCalls(ComputeOutput, run.sizes, |run.sizes|);
    AscendingCalls(UpdateWeights(run.learningRate, run.momentum), run.sizes, |run.sizes|);
    DescendingCalls(BackPropagation, run.sizes, 0);
    OnePhase(a, 0);
    OnePhase(b, 1);
    forall call | call in c ensures Phase(call.op) == 2 {
      var i :| 0 <= i < |c| && c[i] == call;
    }
    OnePhase(c, 2);
    OnePhase(d, 3);
    OnePhase(u, 4);
    PhaseOrderAppend(a, b, 0);
    PhaseOrderAppend(a + b, c, 1);
    PhaseOrderAppend(a + b + c, d, 2);
    PhaseOrderAppend(a + b + c + d, u, 3);
  }

  /** How often the calls for one instance invoke `op` on each neuron: reset,
      compute and back-propagate once; update with this run's rate and
      momentum once under the incremental method. */
  function PerInstance(run: Run, op: Op): nat {
    match op
    case ResetDelta => 1
    case ComputeOutput => 1
    case BackPropagation => 1
    case UpdateWeights(r, m) =>
      if run.learningMethod == Incremental && r == run.learningRate && m == run.momentum then 1 else 0
    case _ => 0
  }

  /** How often the calls for one instance make call `c`. */
  function InstanceShare(run: Run, c: Call): nat {
    if OnGrid(run.sizes, c.layer, c.index) then PerInstance(run, c.op) else 0
  }

  /** How often one epoch invokes `op` on each neuron: the per-instance calls
      for every instance, and one more update under the batch method. */
  function PerEpoch(run: Run, op: Op): nat {
    |run.trainingSet.instances| * PerInstance(run, op)
    + (if run.learningMethod == Batch && op == UpdateWeights(run.learningRate, run.momentum) then 1 else 0)
  }

  lemma SweepCount(op: Op, sizes: seq<nat>, c: Call)
    ensures Occurrences(Sweep(op, sizes), c) == if c.op == op && OnGrid(sizes, c.layer, c.index) then 1 else 0
  {
    AscendingCount(op, sizes, |sizes|, c);
  }

  lemma InstanceCallCount(run: Run, e: nat, k: nat, c: Call)
    requires k < |run.trainingSet.instances|
    requires !c.op.SetExpectedOutput?
    ensures Occurrences(InstanceCalls(run, e, k), c) == InstanceShare(run, c)
  {
    var x := run.trainingSet.instances[k];
    var upd := UpdateWeights(run.learningRate, run.momentum);
    var a := Sweep(ResetDelta, run.sizes);
    var b := Sweep(ComputeOutput, run.sizes);
    var ex := Expectations(|run.sizes| - 1, x.outputs, Errors(run.oracle, e, k, |x.outputs|), |x.outputs|);
    var d := BackwardSweep(BackPropagation, run.sizes);
    var u := if run.learningMethod == Incremental then Sweep(upd, run.sizes) else [];
    assert InstanceCalls(run, e, k) == a + b + ex + d + u;
    OccurrencesAppend(a, b, c);
    OccurrencesAppend(a + b, ex, c);
    OccurrencesAppend(a + b + ex, d, c);
    OccurrencesAppend(a + b + ex + d, u, c);
    SweepCount(ResetDelta, run.sizes, c);
    SweepCount(ComputeOutput, run.sizes, c);
    DescendingCount(BackPropagation, run.sizes, 0, c);
    ExpectationsCount(|run.sizes| - 1, x.outputs, Errors(run.oracle, e, k, |x.outputs|), |x.outputs|, c);
    if run.learningMethod == Incremental {
      SweepCount(upd, run.sizes, c);
    }
  }

  lemma CountStep(k: nat, p: nat, before: nat, more: nat)
    requires k > 0 && before == (k - 1) * p && more == p
    ensures before + more == k * p
  {
  }

  lemma {:induction false} InstancesCallCount(run: Run, e: nat, k: nat, c: Call)
    requires k <= |run.trainingSet.instances|
    requires !c.op.SetExpectedOutput?
    ensures Occurrences(InstancesCalls(run, e, k), c) == k * InstanceShare(run, c)
  {
    if k > 0 {
      InstancesCallCount(run, e, k - 1, c);
      InstanceCallCount(run, e, k - 1, c);
      OccurrencesAppend(InstancesCalls(run, e, k - 1), InstanceCalls(run, e, k - 1), c);
      CountStep(k, InstanceShare(run, c), Occurrences(InstancesCalls(run, e, k - 1), c), Occurrences(InstanceCalls(run, e, k - 1), c));
    }
  }

  lemma EpochCallCount(run: Run, e: nat, c: Call)
    requires !c.op.SetExpectedOutput?
    ensures Occurrences(EpochCalls(run, e), c) == if OnGrid(run.sizes, c.layer, c.index) then PerEpoch(run, c.op) else 0
  {
    var upd := UpdateWeights(run.learningRate, run.momentum);
    var a := InstancesCalls(run, e, |run.trainingSet.instances|);
    var u := if run.learningMethod == Batch then Sweep(upd, run.sizes) else [];
    OccurrencesAppend(a, u, c);
    InstancesCallCount(run, e, |run.trainingSet.instances|, c);
    if run.learningMethod == Batch {
      SweepCount(upd, run.sizes, c);
    }
  }

  /** Over n epochs every neuron is reset, computed and back-propagated once
      per instance per epoch, receives updateWeights once per instance per
      epoch (incremental) or once per epoch (batch), and never has its
      weights reset; no call is made on a neuron outside the grid. */
  lemma {:induction false} CallsPerNeuron(run: Run, n: nat, c: Call)
    requires !c.op.SetExpectedOutput?
    ensures Occurrences(TrainCalls(run, n), c) == n * (if OnGrid(run.sizes, c.layer, c.index) then PerEpoch(run, c.op) else 0)
  {
    if n > 0 {
      CallsPerNeuron(run, n - 1, c);
      EpochCallCount(run, n - 1, c);
      OccurrencesAppend(TrainCalls(run, n - 1), EpochCalls(run, n - 1), c);
      CountStep(n, if OnGrid(run.sizes, c.layer, c.index) then PerEpoch(run, c.op) else 0,
                Occurrences(TrainCalls(run, n - 1), c), Occurrences(EpochCalls(run, n - 1), c));
    }
  }

  /** Every call in `s` is on a neuron of the grid. */
  predicate AllOnGrid(s: seq<Call>, sizes: seq<nat>) {
    forall i | 0 <= i < |s| :: OnGrid(sizes, s[i].layer, s[i].index)
  }

  lemma AllOnGridAppend(a: seq<Call>, b: seq<Call>, sizes: seq<nat>)
    requires AllOnGrid(a, sizes) && AllOnGrid(b, sizes)
    ensures AllOnGrid(a + b, sizes)
  {
  }

  lemma AllOnGridOfMembers(s: seq<Call>, sizes: seq<nat>)
    requires forall c | c in s :: OnGrid(sizes, c.layer, c.index)
    ensures AllOnGrid(s, sizes)
  {
  }

  /** When the training set's output arity is the size of the last layer,
      every call made for one instance is on a neuron of the grid. */
  lemma InstanceCallsOnGrid(run: Run, e: nat, k: nat)
    requires k < |run.trainingSet.instances|
    requires run.trainingSet.numOutputs == run.sizes[|run.sizes| - 1]
    ensures AllOnGrid(InstanceCalls(run, e, k), run.sizes)
  {
    var x := run.trainingSet.instances[k];
    var errs := Errors(run.oracle, e, k, |x.outputs|);
    var a := Sweep(ResetDelta, run.sizes);
    var b := Sweep(ComputeOutput, run.sizes);
    var ex := Expectations(|run.sizes| - 1, x.outputs, errs, |x.outputs|);
    var d := BackwardSweep(BackPropagation, run.sizes);
    var u := if run.learningMethod == Incremental then Sweep(UpdateWeights(run.learningRate, run.momentum), run.sizes) else [];
    assert InstanceCalls(run, e, k) == a + b + ex + d + u;
    AscendingCalls(ResetDelta, run.sizes, |run.sizes|);
    AllOnGridOfMembers(a, run.sizes);
    AscendingCalls(ComputeOutput, run.sizes, |run.sizes|);
    AllOnGridOfMembers(b, run.sizes);
    AscendingCalls(UpdateWeights(run.learningRate, run.momentum), run.sizes, |run.sizes|);
    AllOnGridOfMembers(u, run.sizes);
    DescendingCalls(BackPropagation, run.sizes, 0);
    AllOnGridOfMembers(d, run.sizes);
    ExpectationsAt(|run.sizes| - 1, x.outputs, errs, |x.outputs|);
    AllOnGridAppend(a, b, run.sizes);
    AllOnGridAppend(a + b, ex, run.sizes);
    AllOnGridAppend(a + b + ex, d, run.sizes);
    AllOnGridAppend(a + b + ex + d, u, run.sizes);
  }

  lemma {:induction false} InstancesCallsOnGrid(run: Run, e: nat, k: nat)
    requires k <= |run.trainingSet.instances|
    requires run.trainingSet.numOutputs == run.sizes[|run.sizes| - 1]
    ensures AllOnGrid(InstancesCalls(run, e, k), run.sizes)
  {
    if k > 0 {
      InstancesCallsOnGrid(run, e, k - 1);
      InstanceCallsOnGrid(run, e, k - 1);
      AllOnGridAppend(InstancesCalls(run, e, k - 1), InstanceCalls(run, e, k - 1), run.sizes);
    }
  }

  lemma EpochCallsOnGrid(run: Run, e: nat)
    requires run.trainingSet.numOutputs == run.sizes[|run.sizes| - 1]
    ensures AllOnGrid(EpochCalls(run, e), run.sizes)
  {
    var all := InstancesCalls(run, e, |run.trainingSet.instances|);
    var u := if run.learningMethod == Batch then Sweep(UpdateWeights(run.learningRate, run.momentum), run.sizes) else [];
    InstancesCallsOnGrid(run, e, |run.trainingSet.instances|);
    AscendingCalls(UpdateWeights(run.learningRate, run.momentum), run.sizes, |run.sizes|);
    AllOnGridAppend(all, u, run.sizes);
  }

  /** When the training set's output arity is the size of the last layer (as
      attaching it to a network ensures), training makes no call on a neuron
      outside the grid, `setExpectedOutput` included. */
  lemma {:induction false} TrainCallsOnGrid(run: Run, n: nat)
    requires run.trainingSet.numOutputs == run.sizes[|run.sizes| - 1]
    ensures AllOnGrid(TrainCalls(run, n), run.sizes)
  {
    if n > 0 {
      TrainCallsOnGrid(run, n - 1);
      EpochCallsOnGrid(run, n - 1);
      AllOnGridAppend(TrainCalls(run, n - 1), EpochCalls(run, n - 1), run.sizes);
    }
  }

  /** With a single training instance the two learning methods make exactly
      the same calls, in the same order. */
  lemma {:induction false} OneInstanceMethodsAgree(run: Run, n: nat)
    requires |run.trainingSet.instances| == 1
    ensures TrainCalls(run.(learningMethod := Incremental), n) == TrainCalls(run.(learningMethod := Batch), n)
  {
    if n > 0 {
      OneInstanceMethodsAgree(run, n - 1);
      var inc, bat := run.(learningMethod := Incremental), run.(learningMethod := Batch);
      var x := run.trainingSet.instances[0];
      var upd := Sweep(UpdateWeights(run.learningRate, run.momentum), run.sizes);
      var common := Sweep(ResetDelta, run.sizes)
        + Sweep(ComputeOutput, run.sizes)
        + Expectations(|run.sizes| - 1, x.outputs, Errors(run.oracle, n - 1, 0, |x.outputs|), |x.outputs|)
        + BackwardSweep(BackPropagation, run.sizes);
      var both := common + upd;
      assert InstanceCalls(inc, n - 1, 0) == both;
      assert InstanceCalls(bat, n - 1, 0) == common + [] == common;
      assert InstancesCalls(inc, n - 1, 1) == [] + InstanceCalls(inc, n - 1, 0) == both;
      assert InstancesCalls(bat, n - 1, 1) == [] + InstanceCalls(bat, n - 1, 0) == common;
      assert EpochCalls(inc, n - 1) == both + [] == both;
      assert EpochCalls(bat, n - 1) == common + upd == both;
    }
  }

  /** The error of one instance is the sum of the contributions recorded by
      its expected-output calls. */
  lemma InstanceErrorInTrace(run: Run, e: nat, k: nat)
    requires k < |run.trainingSet.instances|
    ensures ErrorSum(InstanceCalls(run, e, k)) == Sum(Errors(run.oracle, e, k, |run.trainingSet.instances[k].outputs|))
  {
    var x := run.trainingSet.instances[k];
    var errs := Errors(run.oracle, e, k, |x.outputs|);
    var a := Sweep(ResetDelta, run.sizes) + Sweep(ComputeOutput, run.sizes);
    var ex := Expectations(|run.sizes| - 1, x.outputs, errs, |x.outputs|);
    var d := BackwardSweep(BackPropagation, run.sizes);
    var u := if run.learningMethod == Incremental then Sweep(UpdateWeights(run.learningRate, run.momentum), run.sizes) else [];
    assert InstanceCalls(run, e, k) == a + ex + d + u;
    AscendingCalls(ResetDelta, run.sizes, |run.sizes|);
    AscendingCalls(ComputeOutput, run.sizes, |run.sizes|);
    AscendingCalls(UpdateWeights(run.learningRate, run.momentum), run.sizes, |run.sizes|);
    DescendingCalls(BackPropagation, run.sizes, 0);
    ErrorSumWithoutExpectations(a);
    ErrorSumWithoutExpectations(d);
    ErrorSumWithoutExpectations(u);
    ErrorSumOfExpectations(|run.sizes| - 1, x.outputs, errs, |x.outputs|);
    assert errs[..|x.outputs|] == errs;
    ErrorSumAppend(a, ex);
    ErrorSumAppend(a + ex, d);
    ErrorSumAppend(a + ex + d, u);
  }

  /** The error of an epoch is the sum of the contributions recorded by the
      expected-output calls of that epoch. */
  lemma {:induction false} InstancesErrorInTrace(run: Run, e: nat, k: nat)
    requires k <= |run.trainingSet.instances|
    ensures ErrorSum(InstancesCalls(run, e, k)) == InstancesError(run, e, k)
  {
    if k > 0 {
      InstancesErrorInTrace(run, e, k - 1);
      InstanceErrorInTrace(run, e, k - 1);
      ErrorSumAppend(InstancesCalls(run, e, k - 1), InstanceCalls(run, e, k - 1));
    }
  }

  /** The value train returns after n > 0 epochs is the error recorded in the
      last epoch's calls only. */
  lemma LastEpochError(run: Run, n: nat)
    requires n > 0
    ensures TrainError(run, n) == ErrorSum(EpochCalls(run, n - 1))
  {
    var all := InstancesCalls(run, n - 1, |run.trainingSet.instances|);
    InstancesErrorInTrace(run, n - 1, |run.trainingSet.instances|);
    if run.learningMethod == Batch {
      var u := Sweep(UpdateWeights(run.learningRate, run.momentum), run.sizes);
      AscendingCalls(UpdateWeights(run.learningRate, run.momentum), run.sizes, |run.sizes|);
      ErrorSumWithoutExpectations(u);
      ErrorSumAppend(all, u);
      assert EpochCalls(run, n - 1) == all + u;
    } else {
      assert EpochCalls(run, n - 1) == all + [] == all;
    }
  }

  /** The returned error does not depend on what the output neurons answered
      in any epoch but the last. */
  lemma LastEpochOnly(run: Run, other: Oracle, last: nat)
    requires forall k: nat, i: nat :: run.oracle(last, k, i) == other(last, k, i)
    ensures TrainError(run, last + 1) == TrainError(run.(oracle := other), last + 1)
  {
    SameEpochError(run, run.(oracle := other), last, |run.trainingSet.instances|);
  }

  lemma {:induction false} SameEpochError(run: Run, run': Run, e: nat, k: nat)
    requires run'.trainingSet == run.trainingSet
    requires k <= |run.trainingSet.instances|
    requires forall k: nat, i: nat :: run.oracle(e, k, i) == run'.oracle(e, k, i)
    ensures InstancesError(run, e, k) == InstancesError(run', e, k)
  {
    if k > 0 {
      SameEpochError(run, run', e, k - 1);
      var n := |run.trainingSet.instances[k - 1].outputs|;
      assert Errors(run.oracle, e, k - 1, n) == Errors(run'.oracle, e, k - 1, n);
    }
  }
}
