/**
 * What `backward` in micrograd/src/value.rs is meant to compute: the
 * derivative of the root with respect to every node (the chain rule, summed
 * over every consumer of a node), and a corrected pass that delivers it.
 *
 * The FIFO pass of value.rs:112-208 fires each node once, at its first
 * dequeue, and skips it afterwards. A node that is dequeued before all of its
 * consumers have fired forwards an incomplete gradient, so its operands miss
 * the late contributions (`SharedLosesContribution`). Firing the nodes in
 * decreasing index order, which in the arena is a reverse topological order,
 * fires every node after all of its consumers (`SweepIsChainRule`).
 */
module ChainRule {
  import opened Wrappers
  import opened ValueNode
  import opened ValueBackward
  import opened ValueTrace

  /**
   * The local derivative of node i with respect to node j: the sum of i's rule
   * values along every edge into j (two for `add(a, a)`), 0 for a non-operand.
   */
  function Local(E: seq<seq<Edge>>, i: nat, j: nat): real
    requires i < |E|
  {
    Weight(E[i], j)
  }

  /** 1 at the root, 0 elsewhere: what `backward` seeds. */
  function Seeded(root: nat, j: nat): real {
    if j == root then 1.0 else 0.0
  }

  /**
   * d root / d node j: 1 at the root, otherwise the sum over every node i in
   * (j, root] of d root / d i times the local derivative of i along j.
   */
  function Adjoint(E: seq<seq<Edge>>, root: nat, j: nat): real
    requires root < |E| && j <= root
    decreases root - j, 1, 0
  {
    Seeded(root, j) + Inflow(E, root, j, j + 1)
  }

  /** The part of the sum in `Adjoint` contributed by consumers i, ..., root of j. */
  function Inflow(E: seq<seq<Edge>>, root: nat, j: nat, i: nat): real
    requires root < |E| && j < i <= root + 1
    decreases root - j, 0, root + 1 - i
  {
    if i == root + 1 then 0.0
    else Adjoint(E, root, i) * Local(E, i, j) + Inflow(E, root, j, i + 1)
  }

  /** The derivative of node root with respect to node j of an arena. */
  function Derivative(lib: MathLib, nodes: seq<Value>, root: nat, j: nat): real
    requires WellFormed(nodes) && j <= root < |nodes|
  {
    Adjoint(Table(lib, nodes), root, j)
  }

  /** Fires nodes k - 1, k - 2, ..., 0 of the arena in that order, along the edges E. */
  function SweepDown(E: seq<seq<Edge>>, nodes: seq<Value>, k: nat): (r: seq<Value>)
    requires |E| == |nodes| && k <= |nodes|
    ensures SameShape(nodes, r)
    decreases k
  {
    if k == 0 then nodes
    else SweepDown(E, Propagate(nodes, E[k - 1], nodes[k - 1].grad), k - 1)
  }

  /** Firing nodes k - 1, ..., 0 along back edges leaves node k and every node above it as it was. */
  lemma {:induction false} SweepDownAbove(E: seq<seq<Edge>>, nodes: seq<Value>, k: nat, j: nat)
    requires BackEdges(E) && |E| == |nodes| && k <= j < |nodes|
    ensures SweepDown(E, nodes, k)[j] == nodes[j]
    decreases k
  {
    if k > 0 {
      var es := E[k - 1];
      var next := Propagate(nodes, es, nodes[k - 1].grad);
      forall t | 0 <= t < |Targets(es)| ensures Targets(es)[t] != j {
        assert es[t].operand < k - 1;
      }
      PropagateFrame(nodes, es, nodes[k - 1].grad, j);
      SweepDownAbove(E, next, k - 1, j);
    }
  }

  /** The corrected backward pass: seed the root, then fire root, root - 1, ..., 0. */
  function Sweep(lib: MathLib, nodes: seq<Value>, root: nat): (r: seq<Value>)
    requires WellFormed(nodes) && root < |nodes|
    ensures SameShape(nodes, r)
  {
    SweepDown(Table(lib, nodes), Seed(nodes, root), root + 1)
  }

  /** Adding g * w to s + r, where g is a and a * w + r is t, gives s + t. */
  lemma AddTerm(x: real, s: real, r: real, g: real, w: real, a: real, t: real)
    requires x == s + r && g == a && t == a * w + r
    ensures x + g * w == s + t
  {
  }

  /** The first term of an inflow sum. */
  lemma InflowFirst(E: seq<seq<Edge>>, root: nat, j: nat, m: nat)
    requires root < |E| && j < m <= root
    ensures Inflow(E, root, j, m) == Adjoint(E, root, m) * Local(E, m, j) + Inflow(E, root, j, m + 1)
  {
  }

  /** Firing node m, holding its adjoint, completes the inflow of a node below it. */
  lemma FireBelow(E: seq<seq<Edge>>, root: nat, n: seq<Value>, m: nat, j: nat, seed: real)
    requires root < |E| && |n| == |E| && j < m <= root
    requires n[m].grad == Adjoint(E, root, m)
    requires n[j].grad == seed + Inflow(E, root, j, m + 1)
    ensures Propagate(n, E[m], n[m].grad)[j].grad == seed + Inflow(E, root, j, m)
  {
    var g, w := n[m].grad, Weight(E[m], j);
    PropagateAccumulates(n, E[m], g, j);
    InflowFirst(E, root, j, m);
    assert Local(E, m, j) == w;
    AddTerm(n[j].grad, seed, Inflow(E, root, j, m + 1), g, w, Adjoint(E, root, m), Inflow(E, root, j, m));
  }

  /** Firing node m adds nothing to m itself or to any node above it. */
  lemma FireAbove(E: seq<seq<Edge>>, n: seq<Value>, m: nat, j: nat)
    requires BackEdges(E) && |n| == |E| && m <= j < |E|
    ensures Propagate(n, E[m], n[m].grad)[j].grad == n[j].grad
  {
    PropagateAccumulates(n, E[m], n[m].grad, j);
    WeightAbsent(E[m], j);
  }

  /**
   * The sweep's invariant, with nodes root, ..., k already fired: every node
   * from k to the root holds its adjoint, and every node below k holds its
   * seed plus what its consumers from k up have sent it.
   */
  lemma {:induction false} SweepInvariant(E: seq<seq<Edge>>, root: nat, n: seq<Value>, k: nat)
    requires BackEdges(E) && root < |E| && |n| == |E| && k <= root + 1
    requires forall j: nat :: j < k ==> n[j].grad == Seeded(root, j) + Inflow(E, root, j, k)
    requires forall j: nat :: k <= j <= root ==> n[j].grad == Adjoint(E, root, j)
    ensures forall j: nat :: j <= root ==> SweepDown(E, n, k)[j].grad == Adjoint(E, root, j)
    decreases k
  {
    if k > 0 {
      var m := k - 1;
      var next := Propagate(n, E[m], n[m].grad);
      forall j: nat | j < m
        ensures next[j].grad == Seeded(root, j) + Inflow(E, root, j, m)
      {
        FireBelow(E, root, n, m, j, Seeded(root, j));
      }
      forall j: nat | m <= j <= root
        ensures next[j].grad == Adjoint(E, root, j)
      {
        FireAbove(E, n, m, j);
      }
      SweepInvariant(E, root, next, m);
      assert SweepDown(E, n, k) == SweepDown(E, next, m);
    }
  }

  /** Before the sweep, each node holds its seed and nothing has flowed in yet. */
  lemma SeedInflow(E: seq<seq<Edge>>, nodes: seq<Value>, root: nat)
    requires |E| == |nodes| && root < |nodes|
    requires forall j :: 0 <= j < root ==> nodes[j].grad == 0.0
    ensures forall j: nat :: j < root + 1 ==>
      Seed(nodes, root)[j].grad == Seeded(root, j) + Inflow(E, root, j, root + 1)
  {
  }

  /** The corrected pass leaves every node above the root as it was. */
  lemma SweepAbove(lib: MathLib, nodes: seq<Value>, root: nat, j: nat)
    requires WellFormed(nodes) && root < j < |nodes|
    ensures Sweep(lib, nodes, root)[j] == nodes[j]
  {
    SweepDownAbove(Table(lib, nodes), Seed(nodes, root), root + 1, j);
  }

  /**
   * The corrected pass computes the chain rule: on a graph whose gradients
   * below the root start at 0 (as the constructors leave them), every node up
   * to the root ends with d root / d node.
   */
  lemma SweepIsChainRule(lib: MathLib, nodes: seq<Value>, root: nat)
    requires WellFormed(nodes) && root < |nodes|
    requires forall j :: 0 <= j < root ==> nodes[j].grad == 0.0
    ensures forall j: nat :: j <= root ==> Sweep(lib, nodes, root)[j].grad == Derivative(lib, nodes, root, j)
  {
    var E := Table(lib, nodes);
    SeedInflow(E, nodes, root);
    SweepInvariant(E, root, Seed(nodes, root), root + 1);
  }

  /** The chain-rule guarantee of the corrected pass, as the method that runs it states it. */
  lemma SweepDerivatives(lib: MathLib, nodes: seq<Value>, root: nat, result: seq<Value>)
    requires WellFormed(nodes) && root < |nodes| && result == Sweep(lib, nodes, root)
    ensures (forall j :: 0 <= j < root ==> nodes[j].grad == 0.0) ==>
      forall j: nat :: j <= root ==> result[j].grad == Derivative(lib, nodes, root, j)
  {
    if forall j :: 0 <= j < root ==> nodes[j].grad == 0.0 {
      SweepIsChainRule(lib, nodes, root);
    }
  }

  /**
   * The loop step of a sweep: firing node k - 1 with the edges the rules give
   * on the current arena leaves the rest of the sweep to do.
   */
  lemma SweepStep(lib: MathLib, G: seq<Value>, E: seq<seq<Edge>>, n: seq<Value>, next: seq<Value>, k: nat, target: seq<Value>)
    requires WellFormed(G) && E == Table(lib, G) && SameShape(G, n) && 0 < k <= |G|
    requires SweepDown(E, n, k) == target
    requires WellFormed(n) && next == Propagate(n, Partials(lib, n, k - 1), n[k - 1].grad)
    ensures WellFormed(next) && SameShape(G, next)
    ensures SweepDown(E, next, k - 1) == target
  {
    PartialsIgnoreGrads(lib, G, n, k - 1);
    TableAt(lib, G, k - 1);
    SameShapeWellFormed(n, next);
  }

  // ---------------------------------------------------------------------
  // The shared sub-expression: a = 1, b = 2, k = a + b, c = 4, p = k + c, L = k + p

  function SharedGraph(): seq<Value> {
    [Value(1.0, 0.0, None), Value(2.0, 0.0, None),
     Value(3.0, 0.0, Some(Add(0, 1))),
     Value(4.0, 0.0, None),
     Value(7.0, 0.0, Some(Add(2, 3))),
     Value(10.0, 0.0, Some(Add(2, 4)))]
  }

  /** L is dequeued first and sends 1 to k and to p; then k fires with only that 1. */
  lemma SharedFiresLK()
    ensures GradDrain(SharedEdges(), [0.0, 0.0, 0.0, 0.0, 0.0, 1.0], [5], {})
         == GradDrain(SharedEdges(), [1.0, 1.0, 1.0, 0.0, 1.0, 1.0], [4, 0, 1], {5, 2})
  {
    var E := SharedEdges();
    var g0, g1, g2 := [0.0, 0.0, 0.0, 0.0, 0.0, 1.0], [0.0, 0.0, 1.0, 0.0, 1.0, 1.0], [1.0, 1.0, 1.0, 0.0, 1.0, 1.0];
    AccumulatedPair(g0, 2, 1.0, 4, 1.0, 1.0);
    GradDrainFires(E, g0, [5], {}, g1, [2, 4], {5});
    AccumulatedPair(g1, 0, 1.0, 1, 1.0, 1.0);
    GradDrainFires(E, g1, [2, 4], {5}, g2, [4, 0, 1], {5, 2});
  }

  /** p fires and raises k to 2, but k has fired already and is skipped. */
  lemma SharedFiresP()
    ensures GradDrain(SharedEdges(), [1.0, 1.0, 1.0, 0.0, 1.0, 1.0], [4, 0, 1], {5, 2})
         == [1.0, 1.0, 2.0, 1.0, 1.0, 1.0]
  {
    var E := SharedEdges();
    var g2, g3 := [1.0, 1.0, 1.0, 0.0, 1.0, 1.0], [1.0, 1.0, 2.0, 1.0, 1.0, 1.0];
    AccumulatedPair(g2, 2, 1.0, 3, 1.0, 1.0);
    GradDrainFires(E, g2, [4, 0, 1], {5, 2}, g3, [0, 1, 2, 3], {5, 2, 4});
    GradDrainLeaves(E, g3, [0, 1, 2, 3], {5, 2, 4});
  }

  /** What `backward` leaves on the shared graph: a and b get 1. */
  lemma SharedRunGrads(lib: MathLib)
    ensures WellFormed(SharedGraph())
    ensures Grads(Run(lib, SharedGraph(), 5).nodes) == [1.0, 1.0, 2.0, 1.0, 1.0, 1.0]
  {
    var G := SharedGraph();
    SharedTable(lib);
    assert Grads(Seed(G, 5)) == [0.0, 0.0, 0.0, 0.0, 0.0, 1.0];
    RunGrads(lib, G, 5);
    SharedFiresLK();
    SharedFiresP();
  }

  /** The edges of the shared graph: every edge of an addition has weight 1. */
  function SharedEdges(): seq<seq<Edge>> {
    [[], [], [Edge(0, 1.0), Edge(1, 1.0)], [], [Edge(2, 1.0), Edge(3, 1.0)], [Edge(2, 1.0), Edge(4, 1.0)]]
  }

  lemma SharedTable(lib: MathLib)
    ensures WellFormed(SharedGraph()) && Table(lib, SharedGraph()) == SharedEdges()
  {
    var G := SharedGraph();
    assert LinksBack(G, 2) && LinksBack(G, 4) && LinksBack(G, 5);
    var T := Table(lib, G);
    forall i | 0 <= i < 6 ensures T[i] == SharedEdges()[i] {
      assert T[i] == Partials(lib, G, i);
    }
  }

  /** The local derivatives of the shared graph. */
  lemma SharedLocals()
    ensures forall j: nat :: j < 6 ==> Local(SharedEdges(), 5, j) == (if j == 2 || j == 4 then 1.0 else 0.0)
    ensures forall j: nat :: j < 6 ==> Local(SharedEdges(), 4, j) == (if j == 2 || j == 3 then 1.0 else 0.0)
    ensures forall j: nat :: j < 6 ==> Local(SharedEdges(), 2, j) == (if j == 0 || j == 1 then 1.0 else 0.0)
    ensures forall j: nat :: Local(SharedEdges(), 3, j) == 0.0 && Local(SharedEdges(), 1, j) == 0.0
  {
    var E := SharedEdges();
    forall j: nat | j < 6 ensures Local(E, 5, j) == (if j == 2 || j == 4 then 1.0 else 0.0) {
      WeightPair(2, 1.0, 4, 1.0, j);
    }
    forall j: nat | j < 6 ensures Local(E, 4, j) == (if j == 2 || j == 3 then 1.0 else 0.0) {
      WeightPair(2, 1.0, 3, 1.0, j);
    }
    forall j: nat | j < 6 ensures Local(E, 2, j) == (if j == 0 || j == 1 then 1.0 else 0.0) {
      WeightPair(0, 1.0, 1, 1.0, j);
    }
  }

  /** The chain rule on the shared graph: L = k + (k + c) = 2a + 2b + c. */
  lemma SharedDerivatives(lib: MathLib)
    ensures WellFormed(SharedGraph())
    ensures Derivative(lib, SharedGraph(), 5, 0) == 2.0 && Derivative(lib, SharedGraph(), 5, 1) == 2.0
    ensures Derivative(lib, SharedGraph(), 5, 2) == 2.0
  {
    SharedTable(lib);
    SharedLocals();
    var E := SharedEdges();
    assert Adjoint(E, 5, 5) == 1.0;
    assert Inflow(E, 5, 4, 5) == 1.0;
    assert Adjoint(E, 5, 4) == 1.0;
    assert Inflow(E, 5, 3, 5) == 0.0;
    assert Inflow(E, 5, 3, 4) == 1.0;
    assert Adjoint(E, 5, 3) == 1.0;
    assert Inflow(E, 5, 2, 5) == 1.0;
    assert Inflow(E, 5, 2, 4) == 2.0;
    assert Inflow(E, 5, 2, 3) == 2.0;
    assert Adjoint(E, 5, 2) == 2.0;
    assert Inflow(E, 5, 1, 5) == 0.0;
    assert Inflow(E, 5, 1, 4) == 0.0;
    assert Inflow(E, 5, 1, 3) == 0.0;
    assert Inflow(E, 5, 1, 2) == 2.0;
    assert Adjoint(E, 5, 1) == 2.0;
    assert Inflow(E, 5, 0, 5) == 0.0;
    assert Inflow(E, 5, 0, 4) == 0.0;
    assert Inflow(E, 5, 0, 3) == 0.0;
    assert Inflow(E, 5, 0, 2) == 2.0;
    assert Inflow(E, 5, 0, 1) == 2.0;
  }

  /**
   * `backward` loses a contribution on a shared sub-expression: a gets 1,
   * while d L / d a is 2, which is what the corrected sweep gives.
   */
  lemma SharedLosesContribution(lib: MathLib)
    ensures WellFormed(SharedGraph())
    ensures Run(lib, SharedGraph(), 5).nodes[0].grad == 1.0
    ensures Derivative(lib, SharedGraph(), 5, 0) == 2.0
    ensures Sweep(lib, SharedGraph(), 5)[0].grad == 2.0
  {
    SharedRunGrads(lib);
    SharedDerivatives(lib);
    assert Grads(Run(lib, SharedGraph(), 5).nodes)[0] == Run(lib, SharedGraph(), 5).nodes[0].grad;
    SweepIsChainRule(lib, SharedGraph(), 5);
  }
}
