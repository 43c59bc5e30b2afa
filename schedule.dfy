/** The calls a NeuralNetwork makes on its neurons, and the order in which
    its layer-by-layer sweeps make them.

    A neuron is opaque to the network: the network only calls it.  Each call
    is recorded as a `Call` in the network's trace, and the traces of the
    network's operations are defined here as functions of the layer sizes. */
module Schedule {

  /** The operations a network invokes on a neuron. `SetExpectedOutput`
      records the expected value passed in and the error contribution the
      neuron returned. */
  datatype Op =
    | ComputeOutput
    | ResetDelta
    | SetExpectedOutput(expected: real, error: real)
    | BackPropagation
    | UpdateWeights(learningRate: real, momentum: real)
    | ResetWeights

  /** One call of `op` on neuron `index` of neuron layer `layer`. */
  datatype Call = Call(op: Op, layer: nat, index: nat)

  /** Sizes of the neuron layers: there is always at least one. */
  type Layers = s: seq<nat> | |s| > 0 witness [0]

  /** Whether neuron `index` of layer `layer` exists in a grid of the given sizes. */
  predicate OnGrid(sizes: seq<nat>, layer: nat, index: nat) {
    layer < |sizes| && index < sizes[layer]
  }

  /** `op` on neurons 0 .. n-1 of one layer, in index order. */
  function LayerCalls(op: Op, layer: nat, n: nat): (r: seq<Call>)
    ensures |r| == n
  {
    if n == 0 then [] else LayerCalls(op, layer, n - 1) + [Call(op, layer, n - 1)]
  }

  /** Call j of a layer's calls is the call on neuron j. */
  lemma {:induction false} LayerCallsAt(op: Op, layer: nat, n: nat)
    ensures forall j | 0 <= j < n :: LayerCalls(op, layer, n)[j] == Call(op, layer, j)
  {
    if n > 0 {
      LayerCallsAt(op, layer, n - 1);
    }
  }

  /** `op` on every neuron of layers 0 .. n-1, layer by layer upwards. */
  function Ascending(op: Op, sizes: seq<nat>, n: nat): (r: seq<Call>)
    requires n <= |sizes|
  {
    if n == 0 then [] else Ascending(op, sizes, n - 1) + LayerCalls(op, n - 1, sizes[n - 1])
  }

  /** `op` on every neuron of layers |sizes|-1 down to lo, layer by layer downwards. */
  function Descending(op: Op, sizes: seq<nat>, lo: nat): (r: seq<Call>)
    requires lo <= |sizes|
    decreases |sizes| - lo
  {
    if lo == |sizes| then [] else Descending(op, sizes, lo + 1) + LayerCalls(op, lo, sizes[lo])
  }

  /** An upward sweep over layers 0 .. n-1 makes only `op` calls, on
      neurons of those layers. */
  lemma {:induction false} AscendingCalls(op: Op, sizes: seq<nat>, n: nat)
    requires n <= |sizes|
    ensures forall c | c in Ascending(op, sizes, n) :: c.op == op && c.layer < n && OnGrid(sizes, c.layer, c.index)
  {
    if n > 0 {
      AscendingCalls(op, sizes, n - 1);
      LayerCallsAt(op, n - 1, sizes[n - 1]);
      var b := LayerCalls(op, n - 1, sizes[n - 1]);
      forall c | c in b ensures c.op == op && c.layer == n - 1 && OnGrid(sizes, c.layer, c.index) {
        var j :| 0 <= j < |b| && b[j] == c;
      }
    }
  }

  /** A downward sweep over layers |sizes|-1 .. lo makes only `op` calls, on
      neurons of those layers. */
  lemma {:induction false} DescendingCalls(op: Op, sizes: seq<nat>, lo: nat)
    requires lo <= |sizes|
    ensures forall c | c in Descending(op, sizes, lo) :: c.op == op && lo <= c.layer && OnGrid(sizes, c.layer, c.index)
    decreases |sizes| - lo
  {
    if lo < |sizes| {
      DescendingCalls(op, sizes, lo + 1);
      LayerCallsAt(op, lo, sizes[lo]);
      var b := LayerCalls(op, lo, sizes[lo]);
      forall c | c in b ensures c.op == op && c.layer == lo && OnGrid(sizes, c.layer, c.index) {
        var j :| 0 <= j < |b| && b[j] == c;
      }
    }
  }

  /** Regrouping a concatenation, for stepping a trace one piece at a time. */
  lemma AppendAssoc(a: seq<Call>, b: seq<Call>, c: seq<Call>)
    ensures a + (b + c) == (a + b) + c
  {
  }

  /** A forward sweep: every neuron, from the first layer to the last. */
  function Sweep(op: Op, sizes: seq<nat>): seq<Call> {
    Ascending(op, sizes, |sizes|)
  }

  /** A backward sweep: every neuron, from the last layer to the first. */
  function BackwardSweep(op: Op, sizes: seq<nat>): seq<Call> {
    Descending(op, sizes, 0)
  }

  /** The first n `SetExpectedOutput` calls on the output layer, in index order. */
  function Expectations(layer: nat, expected: seq<real>, errors: seq<real>, n: nat): (r: seq<Call>)
    requires n <= |expected| && n <= |errors|
    ensures |r| == n
  {
    if n == 0 then []
    else Expectations(layer, expected, errors, n - 1) + [Call(SetExpectedOutput(expected[n - 1], errors[n - 1]), layer, n - 1)]
  }

  /** Call i of the expected-output calls passes expected[i] to neuron i and
      records its answer errors[i]. */
  lemma {:induction false} ExpectationsAt(layer: nat, expected: seq<real>, errors: seq<real>, n: nat)
    requires n <= |expected| && n <= |errors|
    ensures forall i | 0 <= i < n ::
      Expectations(layer, expected, errors, n)[i] == Call(SetExpectedOutput(expected[i], errors[i]), layer, i)
  {
    if n > 0 {
      ExpectationsAt(layer, expected, errors, n - 1);
    }
  }

  /** Layers strictly upwards; within a layer, indices strictly upwards. */
  predicate InForwardOrder(s: seq<Call>) {
    forall p, q | 0 <= p < q < |s| ::
      s[p].layer < s[q].layer || (s[p].layer == s[q].layer && s[p].index < s[q].index)
  }

  /** Layers strictly downwards; within a layer, indices strictly upwards. */
  predicate InBackwardOrder(s: seq<Call>) {
    forall p, q | 0 <= p < q < |s| ::
      s[p].layer > s[q].layer || (s[p].layer == s[q].layer && s[p].index < s[q].index)
  }

  /** How often call `c` occurs in a trace. */
  function Occurrences(s: seq<Call>, c: Call): nat {
    if s == [] then 0 else Occurrences(s[..|s| - 1], c) + (if s[|s| - 1] == c then 1 else 0)
  }

  lemma {:induction false} OccurrencesAppend(a: seq<Call>, b: seq<Call>, c: Call)
    ensures Occurrences(a + b, c) == Occurrences(a, c) + Occurrences(b, c)
    decreases |b|
  {
    if b == [] {
      assert a + b == a;
    } else {
      assert (a + b)[..|a + b| - 1] == a + b[..|b| - 1];
      OccurrencesAppend(a, b[..|b| - 1], c);
    }
  }

  lemma OccurrencesSingleton(x: Call, c: Call)
    ensures Occurrences([x], c) == if x == c then 1 else 0
  {
    assert [x][..0] == [];
  }

  lemma {:induction false} LayerCallsCount(op: Op, layer: nat, n: nat, c: Call)
    ensures Occurrences(LayerCalls(op, layer, n), c) ==
            if c.op == op && c.layer == layer && c.index < n then 1 else 0
  {
    if n > 0 {
      var prev, last := LayerCalls(op, layer, n - 1), Call(op, layer, n - 1);
      calc {
        Occurrences(LayerCalls(op, layer, n), c);
        Occurrences(prev + [last], c);
        { OccurrencesAppend(prev, [last], c); }
        Occurrences(prev, c) + Occurrences([last], c);
        { LayerCallsCount(op, layer, n - 1, c); OccurrencesSingleton(last, c); }
        (if c.op == op && c.layer == layer && c.index < n - 1 then 1 else 0) + (if last == c then 1 else 0);
      }
    }
  }

  /** The expected-output calls make no call of another kind. */
  lemma {:induction false} ExpectationsCount(layer: nat, expected: seq<real>, errors: seq<real>, n: nat, c: Call)
    requires n <= |expected| && n <= |errors|
    requires !c.op.SetExpectedOutput?
    ensures Occurrences(Expectations(layer, expected, errors, n), c) == 0
  {
    if n > 0 {
      var prev, last := Expectations(layer, expected, errors, n - 1), Call(SetExpectedOutput(expected[n - 1], errors[n - 1]), layer, n - 1);
      ExpectationsCount(layer, expected, errors, n - 1, c);
      OccurrencesAppend(prev, [last], c);
      OccurrencesSingleton(last, c);
    }
  }

  /** An upward sweep over layers 0 .. n-1 calls every neuron of those
      layers exactly once, and nothing else. */
  lemma {:induction false} AscendingCount(op: Op, sizes: seq<nat>, n: nat, c: Call)
    requires n <= |sizes|
    ensures Occurrences(Ascending(op, sizes, n), c) ==
            if c.op == op && c.layer < n && OnGrid(sizes, c.layer, c.index) then 1 else 0
  {
    if n > 0 {
      OccurrencesAppend(Ascending(op, sizes, n - 1), LayerCalls(op, n - 1, sizes[n - 1]), c);
      AscendingCount(op, sizes, n - 1, c);
      LayerCallsCount(op, n - 1, sizes[n - 1], c);
    }
  }

  /** A downward sweep over layers |sizes|-1 .. lo calls every neuron of
      those layers exactly once, and nothing else. */
  lemma {:induction false} DescendingCount(op: Op, sizes: seq<nat>, lo: nat, c: Call)
    requires lo <= |sizes|
    ensures Occurrences(Descending(op, sizes, lo), c) ==
            if c.op == op && lo <= c.layer && OnGrid(sizes, c.layer, c.index) then 1 else 0
    decreases |sizes| - lo
  {
    if lo < |sizes| {
      OccurrencesAppend(Descending(op, sizes, lo + 1), LayerCalls(op, lo, sizes[lo]), c);
      DescendingCount(op, sizes, lo + 1, c);
      LayerCallsCount(op, lo, sizes[lo], c);
    }
  }

  /** A forward sweep visits all of layer l before any of layer l+1. */
  lemma {:induction false} AscendingInForwardOrder(op: Op, sizes: seq<nat>, n: nat)
    requires n <= |sizes|
    ensures InForwardOrder(Ascending(op, sizes, n))
  {
    if n > 0 {
      AscendingInForwardOrder(op, sizes, n - 1);
      AscendingCalls(op, sizes, n - 1);
      LayerCallsAt(op, n - 1, sizes[n - 1]);
      var a, b := Ascending(op, sizes, n - 1), LayerCalls(op, n - 1, sizes[n - 1]);
      var s := a + b;
      forall p, q | 0 <= p < q < |s|
        ensures s[p].layer < s[q].layer || (s[p].layer == s[q].layer && s[p].index < s[q].index)
      {
        if q < |a| {
          assert s[p] == a[p] && s[q] == a[q];
        } else if p >= |a| {
          assert s[p] == b[p - |a|] && s[q] == b[q - |a|];
        } else {
          assert s[p] == a[p] && a[p] in a;
          assert s[q] == b[q - |a|];
        }
      }
    }
  }

  /** A backward sweep visits all of layer l+1 before any of layer l. */
  lemma {:induction false} DescendingInBackwardOrder(op: Op, sizes: seq<nat>, lo: nat)
    requires lo <= |sizes|
    ensures InBackwardOrder(Descending(op, sizes, lo))
    decreases |sizes| - lo
  {
    if lo < |sizes| {
      DescendingInBackwardOrder(op, sizes, lo + 1);
      DescendingCalls(op, sizes, lo + 1);
      LayerCallsAt(op, lo, sizes[lo]);
      var a, b := Descending(op, sizes, lo + 1), LayerCalls(op, lo, sizes[lo]);
      var s := a + b;
      forall p, q | 0 <= p < q < |s|
        ensures s[p].layer > s[q].layer || (s[p].layer == s[q].layer && s[p].index < s[q].index)
      {
        if q < |a| {
          assert s[p] == a[p] && s[q] == a[q];
        } else if p >= |a| {
          assert s[p] == b[p - |a|] && s[q] == b[q - |a|];
        } else {
          assert s[p] == a[p] && a[p] in a;
          assert s[q] == b[q - |a|];
        }
      }
    }
  }

  /** Sum of a sequence of reals, added from the left as an accumulator would. */
  function Sum(s: seq<real>): real {
    if s == [] then 0.0 else Sum(s[..|s| - 1]) + s[|s| - 1]
  }

  /** The error contributions recorded in a trace, summed in trace order. */
  function ErrorSum(s: seq<Call>): real {
    if s == [] then 0.0
    else ErrorSum(s[..|s| - 1]) + (if s[|s| - 1].op.SetExpectedOutput? then s[|s| - 1].op.error else 0.0)
  }

  lemma {:induction false} ErrorSumAppend(a: seq<Call>, b: seq<Call>)
    ensures ErrorSum(a + b) == ErrorSum(a) + ErrorSum(b)
    decreases |b|
  {
    if b != [] {
      assert (a + b)[..|a + b| - 1] == a + b[..|b| - 1];
      ErrorSumAppend(a, b[..|b| - 1]);
    } else {
      assert a + b == a;
    }
  }

  /** A trace with no `SetExpectedOutput` call contributes no error. */
  lemma {:induction false} ErrorSumWithoutExpectations(s: seq<Call>)
    requires forall c | c in s :: !c.op.SetExpectedOutput?
    ensures ErrorSum(s) == 0.0
  {
    if s != [] {
      assert forall c | c in s[..|s| - 1] :: c in s;
      ErrorSumWithoutExpectations(s[..|s| - 1]);
      assert s[|s| - 1] in s;
    }
  }

  /** The error recorded by the calls on the output layer is the sum of the
      contributions the neurons returned. */
  lemma {:induction false} ErrorSumOfExpectations(layer: nat, expected: seq<real>, errors: seq<real>, n: nat)
    requires n <= |expected| && n <= |errors|
    ensures ErrorSum(Expectations(layer, expected, errors, n)) == Sum(errors[..n])
  {
    if n > 0 {
      var prev := Expectations(layer, expected, errors, n - 1);
      var last := Call(SetExpectedOutput(expected[n - 1], errors[n - 1]), layer, n - 1);
      ErrorSumOfExpectations(layer, expected, errors, n - 1);
      ErrorSumAppend(prev, [last]);
      assert [last][..0] == [];
      assert errors[..n][..n - 1] == errors[..n - 1];
    } else {
      assert errors[..0] == [];
    }
  }
}
