/** Neurons and layers of neurons behind one interface, so that a single
    Connect joins any two of them: every neuron on the left gets an edge to
    every neuron on the right. */
module NeuralNetworks {

  class Neuron {
    var inputs: seq<Neuron>
    var outputs: seq<Neuron>

    /** A neuron with no edges. */
    constructor ()
      ensures inputs == [] && outputs == []
    {
      inputs, outputs := [], [];
    }

    /** A single neuron iterates as itself. */
    method Iter() returns (r: seq<Neuron>)
      ensures r == [this]
    {
      r := [this];
    }

    /** One edge: other is appended to this neuron's outputs and this neuron
        to other's inputs; nothing else changes, also when other is this. */
    method ConnectTo(other: Neuron)
      modifies this, other
      ensures outputs == old(outputs) + [other]
      ensures other.inputs == old(other.inputs) + [this]
      ensures other != this ==> inputs == old(inputs) && other.outputs == old(other.outputs)
    {
      outputs := outputs + [other];
      other.inputs := other.inputs + [this];
    }
  }

  /** A layer owns its neurons; Go stores them by value in a slice and hands
      out pointers to the elements, which are distinct objects. */
  class NeuronLayer {
    const neurons: seq<Neuron>

    ghost predicate Valid()
    {
      forall a, b :: 0 <= a < b < |neurons| ==> neurons[a] != neurons[b]
    }

    /** NewNeuronLayer: count new neurons, none of them connected. */
    constructor (count: nat)
      ensures |neurons| == count && Valid()
      ensures forall n :: n in neurons ==> fresh(n) && n.inputs == [] && n.outputs == []
    {
      var ns: seq<Neuron> := [];
      for i := 0 to count
        invariant |ns| == i
        invariant forall a, b :: 0 <= a < b < i ==> ns[a] != ns[b]
        invariant forall n :: n in ns ==> fresh(n) && n.inputs == [] && n.outputs == []
      {
        var n := new Neuron();
        ns := ns + [n];
      }
      neurons := ns;
    }

    /** The layer's neurons, in index order. */
    method Iter() returns (r: seq<Neuron>)
      ensures r == neurons
    {
      r := [];
      for i := 0 to |neurons|
        invariant r == neurons[..i]
      {
        r := r + [neurons[i]];
      }
      assert neurons[..|neurons|] == neurons;
    }
  }

  /** A value of the neuron interface: a single neuron or a layer. */
  datatype NeuronInterface = Single(neuron: Neuron) | Layer(layer: NeuronLayer)
  {
    /** What Iter returns for it. */
    function Members(): seq<Neuron>
    {
      match this
      case Single(n) => [n]
      case Layer(l) => l.neurons
    }

    /** A layer's neurons are distinct; a single neuron always is. */
    ghost predicate Valid()
    {
      match this
      case Single(_) => true
      case Layer(l) => l.Valid()
    }
  }

  method Iter(x: NeuronInterface) returns (r: seq<Neuron>)
    ensures r == x.Members()
  {
    match x
    case Single(n) => r := n.Iter();
    case Layer(l) => r := l.Iter();
  }

  /** The outputs Connect adds to n: all of rs for every time n is on the
      left. */
  function OutAdded(ls: seq<Neuron>, rs: seq<Neuron>, n: Neuron): seq<Neuron>
  {
    if ls == [] then []
    else OutAdded(ls[..|ls| - 1], rs, n) + (if ls[|ls| - 1] == n then rs else [])
  }

  /** The inputs one left neuron l adds to n: l once per time n is on the
      right. */
  function Hits(rs: seq<Neuron>, n: Neuron, l: Neuron): seq<Neuron>
  {
    if rs == [] then []
    else Hits(rs[..|rs| - 1], n, l) + (if rs[|rs| - 1] == n then [l] else [])
  }

  /** The inputs Connect adds to n, left neuron by left neuron. */
  function InAdded(ls: seq<Neuron>, rs: seq<Neuron>, n: Neuron): seq<Neuron>
  {
    if ls == [] then []
    else InAdded(ls[..|ls| - 1], rs, n) + Hits(rs, n, ls[|ls| - 1])
  }

  function Footprint(left: NeuronInterface, right: NeuronInterface): set<Neuron>
  {
    set n | n in left.Members() + right.Members()
  }

  /** One left neuron's turn in Connect: an edge from l to each of rs, in
      order. Within the neurons given, l gains rs as outputs and every
      neuron gains l once per time it is in rs. */
  method ConnectToEach(l: Neuron, rs: seq<Neuron>, ghost all: set<Neuron>)
    requires l in all && forall r :: r in rs ==> r in all
    modifies all
    ensures forall n :: n in all ==>
      n.outputs == old(n.outputs) + (if n == l then rs else [])
      && n.inputs == old(n.inputs) + Hits(rs, n, l)
  {
    for j := 0 to |rs|
      invariant forall n :: n in all ==>
        n.outputs == old(n.outputs) + (if n == l then rs[..j] else [])
        && n.inputs == old(n.inputs) + Hits(rs[..j], n, l)
    {
      assert rs[..j + 1][..j] == rs[..j];
      l.ConnectTo(rs[j]);
    }
    assert rs[..|rs|] == rs;
  }

  /** An output list that held base plus the first i left neurons'
      contributions, and then gained the i-th one's, holds base plus the
      first i + 1. */
  lemma OutStep(ls: seq<Neuron>, i: nat, rs: seq<Neuron>, n: Neuron,
                base: seq<Neuron>, mid: seq<Neuron>, now: seq<Neuron>)
    requires i < |ls|
    requires mid == base + OutAdded(ls[..i], rs, n)
    requires now == mid + (if n == ls[i] then rs else [])
    ensures now == base + OutAdded(ls[..i + 1], rs, n)
  {
    assert ls[..i + 1][..i] == ls[..i];
    var c := if n == ls[i] then rs else [];
    assert OutAdded(ls[..i + 1], rs, n) == OutAdded(ls[..i], rs, n) + c;
    assert now == base + (OutAdded(ls[..i], rs, n) + c);
  }

  /** The same for an input list. */
  lemma InStep(ls: seq<Neuron>, i: nat, rs: seq<Neuron>, n: Neuron,
               base: seq<Neuron>, mid: seq<Neuron>, now: seq<Neuron>)
    requires i < |ls|
    requires mid == base + InAdded(ls[..i], rs, n)
    requires now == mid + Hits(rs, n, ls[i])
    ensures now == base + InAdded(ls[..i + 1], rs, n)
  {
    assert ls[..i + 1][..i] == ls[..i];
    assert ls[..i + 1][i] == ls[i];
    var c := Hits(rs, n, ls[i]);
    assert InAdded(ls[..i + 1], rs, n) == InAdded(ls[..i], rs, n) + c;
    assert now == base + (InAdded(ls[..i], rs, n) + c);
  }

  /** One turn of Connect's outer loop: the edges of the i-th left neuron,
      measured against the edge lists out0 and in0 from before the loop. */
  method ConnectNext(ls: seq<Neuron>, i: nat, rs: seq<Neuron>, ghost all: set<Neuron>,
                     ghost out0: map<Neuron, seq<Neuron>>, ghost in0: map<Neuron, seq<Neuron>>)
    requires i < |ls| && ls[i] in all
    requires forall r :: r in rs ==> r in all
    requires forall n :: n in all ==> n in out0 && n in in0
    requires forall n :: n in all ==>
      n.outputs == out0[n] + OutAdded(ls[..i], rs, n)
      && n.inputs == in0[n] + InAdded(ls[..i], rs, n)
    modifies all
    ensures forall n :: n in all ==>
      n.outputs == out0[n] + OutAdded(ls[..i + 1], rs, n)
      && n.inputs == in0[n] + InAdded(ls[..i + 1], rs, n)
  {
    ConnectToEach(ls[i], rs, all);
    forall n | n in all
      ensures n.outputs == out0[n] + OutAdded(ls[..i + 1], rs, n)
      ensures n.inputs == in0[n] + InAdded(ls[..i + 1], rs, n)
    {
      OutStep(ls, i, rs, n, out0[n], old(n.outputs), n.outputs);
      InStep(ls, i, rs, n, in0[n], old(n.inputs), n.inputs);
    }
  }

  /** The nested loops of Connect over the two iterations, within the
      neurons given. */
  method ConnectEach(ls: seq<Neuron>, rs: seq<Neuron>, ghost all: set<Neuron>)
    requires forall l :: l in ls ==> l in all
    requires forall r :: r in rs ==> r in all
    modifies all
    ensures forall n :: n in all ==>
      n.outputs == old(n.outputs) + OutAdded(ls, rs, n)
      && n.inputs == old(n.inputs) + InAdded(ls, rs, n)
  {
    ghost var out0 := map n | n in all :: n.outputs;
    ghost var in0 := map n | n in all :: n.inputs;
    for i := 0 to |ls|
      invariant forall n :: n in all ==>
        n.outputs == out0[n] + OutAdded(ls[..i], rs, n)
        && n.inputs == in0[n] + InAdded(ls[..i], rs, n)
    {
      assert ls[i] in ls;
      ConnectNext(ls, i, rs, all, out0, in0);
    }
    assert ls[..|ls|] == ls;
  }

  /** Connects every left neuron to every right neuron, left-major. Each
      neuron's edge lists grow by exactly OutAdded and InAdded; neurons on
      neither side are not touched. */
  method Connect(left: NeuronInterface, right: NeuronInterface)
    modifies Footprint(left, right)
    ensures forall n :: n in Footprint(left, right) ==>
      n.outputs == old(n.outputs) + OutAdded(left.Members(), right.Members(), n)
      && n.inputs == old(n.inputs) + InAdded(left.Members(), right.Members(), n)
  {
    var ls := Iter(left);
    var rs := Iter(right);
    ConnectEach(ls, rs, Footprint(left, right));
  }

  /** Positions hold distinct neurons. */
  predicate Distinct(s: seq<Neuron>)
  {
    forall a, b :: 0 <= a < b < |s| ==> s[a] != s[b]
  }

  /** A neuron that is on the left once gains every right neuron as an
      output, in order; one not on the left gains none. */
  lemma {:induction false} OutAddedOnce(ls: seq<Neuron>, rs: seq<Neuron>, n: Neuron)
    requires Distinct(ls)
    ensures OutAdded(ls, rs, n) == if n in ls then rs else []
  {
    if ls != [] {
      var front := ls[..|ls| - 1];
      OutAddedOnce(front, rs, n);
      if ls[|ls| - 1] == n {
        assert n !in front by {
          forall k | 0 <= k < |front|
            ensures front[k] != n
          {
            assert front[k] == ls[k];
          }
        }
      }
    }
  }

  /** A neuron that is on the right once gains l as an input once; one not
      on the right gains nothing. */
  lemma {:induction false} HitsOnce(rs: seq<Neuron>, n: Neuron, l: Neuron)
    requires Distinct(rs)
    ensures Hits(rs, n, l) == if n in rs then [l] else []
  {
    if rs != [] {
      var front := rs[..|rs| - 1];
      HitsOnce(front, n, l);
      if rs[|rs| - 1] == n {
        assert n !in front by {
          forall k | 0 <= k < |front|
            ensures front[k] != n
          {
            assert front[k] == rs[k];
          }
        }
      }
    }
  }

  /** A neuron that is on the right once gains every left neuron as an
      input, in order; one not on the right gains none. */
  lemma {:induction false} InAddedOnce(ls: seq<Neuron>, rs: seq<Neuron>, n: Neuron)
    requires Distinct(rs)
    ensures InAdded(ls, rs, n) == if n in rs then ls else []
  {
    if ls != [] {
      var front := ls[..|ls| - 1];
      InAddedOnce(front, rs, n);
      HitsOnce(rs, n, ls[|ls| - 1]);
      if n in rs {
        assert ls == front + [ls[|ls| - 1]];
      } else {
        assert InAdded(ls, rs, n) == [] + [];
      }
    }
  }

  /** Connect between valid interfaces in closed form: a neuron on the left
      gains every right neuron as an output, a neuron on the right gains
      every left neuron as an input, in order, and any other neuron gains
      nothing on that side. */
  lemma ConnectClosedForm(left: NeuronInterface, right: NeuronInterface, n: Neuron)
    requires left.Valid() && right.Valid()
    ensures OutAdded(left.Members(), right.Members(), n)
            == if n in left.Members() then right.Members() else []
    ensures InAdded(left.Members(), right.Members(), n)
            == if n in right.Members() then left.Members() else []
  {
    OutAddedOnce(left.Members(), right.Members(), n);
    InAddedOnce(left.Members(), right.Members(), n);
  }
}
