/**
 * The Rust tests of micrograd/src/value.rs:224-377, restated over reals.
 * Each test graph is written out as the arena its constructors build, the
 * backward pass is followed on it step by step (one lemma per propagating
 * node where the solver needs the room), and a method replays the test
 * itself on a `Graph`.
 */
module ValueTests {
  import opened Wrappers
  import opened ValueNode
  import opened ValueBackward
  import opened ValueTrace
  import opened ValueGraph

  function Leaf(data: real): Value {
    Value(data, 0.0, None)
  }

  // ---------------------------------------------------------------------
  // simple_backward: a = 2, b = -3, c = 10, e = a*b, d = e+c, f = -2, L = d*f

  function SimpleGraph(): seq<Value> {
    [Leaf(2.0), Leaf(-3.0), Leaf(10.0),
     Value(-6.0, 0.0, Some(Mul(0, 1))),
     Value(4.0, 0.0, Some(Add(3, 2))),
     Leaf(-2.0),
     Value(-8.0, 0.0, Some(Mul(4, 5)))]
  }

  /** The edges of the graph: a product sends each operand the other's data. */
  function SimpleEdges(): seq<seq<Edge>> {
    [[], [], [], [Edge(0, -3.0), Edge(1, 2.0)], [Edge(3, 1.0), Edge(2, 1.0)], [], [Edge(4, -2.0), Edge(5, 4.0)]]
  }

  lemma SimpleTable(lib: MathLib)
    ensures WellFormed(SimpleGraph()) && Table(lib, SimpleGraph()) == SimpleEdges()
  {
    var G := SimpleGraph();
    assert LinksBack(G, 3) && LinksBack(G, 4) && LinksBack(G, 6);
    var T := Table(lib, G);
    forall i | 0 <= i < 7 ensures T[i] == SimpleEdges()[i] {
      assert T[i] == Partials(lib, G, i);
    }
  }

  /** Fires L = d * f (d = 4, f = -2). */
  lemma SimpleFiresL()
    ensures GradDrain(SimpleEdges(), [0.0, 0.0, 0.0, 0.0, 0.0, 0.0, 1.0], [6], {})
         == GradDrain(SimpleEdges(), [0.0, 0.0, 0.0, 0.0, -2.0, 4.0, 1.0], [4, 5], {6})
  {
    var g0, g1 := [0.0, 0.0, 0.0, 0.0, 0.0, 0.0, 1.0], [0.0, 0.0, 0.0, 0.0, -2.0, 4.0, 1.0];
    AccumulatedPair(g0, 4, -2.0, 5, 4.0, 1.0);
    GradDrainFires(SimpleEdges(), g0, [6], {}, g1, [4, 5], {6});
  }

  /** Fires d = e + c, then skips the leaf f. */
  lemma SimpleFiresD()
    ensures GradDrain(SimpleEdges(), [0.0, 0.0, 0.0, 0.0, -2.0, 4.0, 1.0], [4, 5], {6})
         == GradDrain(SimpleEdges(), [0.0, 0.0, -2.0, -2.0, -2.0, 4.0, 1.0], [3, 2], {6, 4, 5})
  {
    var E := SimpleEdges();
    var g1, g2 := [0.0, 0.0, 0.0, 0.0, -2.0, 4.0, 1.0], [0.0, 0.0, -2.0, -2.0, -2.0, 4.0, 1.0];
    AccumulatedPair(g1, 3, 1.0, 2, 1.0, -2.0);
    GradDrainFires(E, g1, [4, 5], {6}, g2, [5, 3, 2], {6, 4});
    GradDrainSkipsLeaf(E, g2, [5, 3, 2], {6, 4});
    assert [5, 3, 2][1..] == [3, 2] && {6, 4} + {5} == {6, 4, 5};
  }

  /** Fires e = a * b (a = 2, b = -3); only leaves remain. */
  lemma SimpleFiresE()
    ensures GradDrain(SimpleEdges(), [0.0, 0.0, -2.0, -2.0, -2.0, 4.0, 1.0], [3, 2], {6, 4, 5})
         == [6.0, -4.0, -2.0, -2.0, -2.0, 4.0, 1.0]
  {
    var E := SimpleEdges();
    var g2, g3 := [0.0, 0.0, -2.0, -2.0, -2.0, 4.0, 1.0], [6.0, -4.0, -2.0, -2.0, -2.0, 4.0, 1.0];
    AccumulatedPair(g2, 0, -3.0, 1, 2.0, -2.0);
    GradDrainFires(E, g2, [3, 2], {6, 4, 5}, g3, [2, 0, 1], {6, 4, 5, 3});
    GradDrainLeaves(E, g3, [2, 0, 1], {6, 4, 5, 3});
  }

  /** value.rs:238-245: L = 1, d = -2, f = 4, c = -2, e = -2, a = 6, b = -4. */
  lemma SimpleBackwardGrads(lib: MathLib)
    ensures WellFormed(SimpleGraph())
    ensures Grads(Run(lib, SimpleGraph(), 6).nodes) == [6.0, -4.0, -2.0, -2.0, -2.0, 4.0, 1.0]
  {
    var G := SimpleGraph();
    SimpleTable(lib);
    assert Grads(Seed(G, 6)) == [0.0, 0.0, 0.0, 0.0, 0.0, 0.0, 1.0];
    RunGrads(lib, G, 6);
    SimpleFiresL();
    SimpleFiresD();
    SimpleFiresE();
  }

  /** The graph of `simple_backward`, built with the constructors; returns L. */
  method BuildSimple(lib: MathLib) returns (g: Graph, l: nat)
    ensures fresh(g) && g.Valid() && g.lib == lib && g.nodes == SimpleGraph() && l == 6
  {
    g := new Graph(lib);
    var a := g.New(2.0);
    var b := g.New(-3.0);
    var c := g.New(10.0);
    assert g.nodes == SimpleGraph()[..3];
    var e := g.Mul(a, b);
    var d := g.Add(e, c);
    assert g.nodes == SimpleGraph()[..5];
    var f := g.New(-2.0);
    l := g.Mul(d, f);
  }

  /** The test itself: builds the graph with the constructors and runs `backward` on it. */
  method SimpleBackward(lib: MathLib) returns (data: seq<real>, grads: seq<real>)
    ensures data == [2.0, -3.0, 10.0, -6.0, 4.0, -2.0, -8.0]
    ensures grads == [6.0, -4.0, -2.0, -2.0, -2.0, 4.0, 1.0]
  {
    var g, l := BuildSimple(lib);
    data := Datas(g.nodes);
    g.Backward(l);
    SimpleBackwardGrads(lib);
    grads := Grads(g.nodes);
  }

  // ---------------------------------------------------------------------
  // simple_tanh: x1 = 2, x2 = 0, w1 = -3, w2 = 1, b = 6.8813735870195432,
  // n = (x1*w1 + x2*w2) + b, o = tanh(n)

  /** The data of n, -6 + 0 + 6.8813735870195432 over reals. */
  const TanhInput: real := 0.8813735870195432

  function TanhGraph(lib: MathLib): seq<Value> {
    [Leaf(2.0), Leaf(0.0), Leaf(-3.0), Leaf(1.0), Leaf(6.8813735870195432),
     Value(-6.0, 0.0, Some(Mul(0, 2))),
     Value(0.0, 0.0, Some(Mul(1, 3))),
     Value(-6.0, 0.0, Some(Add(5, 6))),
     Value(TanhInput, 0.0, Some(Add(7, 4))),
     Value(lib.tanh(TanhInput), 0.0, Some(Tanh(8)))]
  }

  /** The local derivative of o = tanh(n), 1 - o^2. */
  function TanhSlope(lib: MathLib): real {
    1.0 - lib.tanh(TanhInput) * lib.tanh(TanhInput)
  }

  /** The edges of the graph, with s the local derivative of the tanh node. */
  function TanhEdges(s: real): seq<seq<Edge>> {
    [[], [], [], [], [],
     [Edge(0, -3.0), Edge(2, 2.0)], [Edge(1, 1.0), Edge(3, 0.0)],
     [Edge(5, 1.0), Edge(6, 1.0)], [Edge(7, 1.0), Edge(4, 1.0)], [Edge(8, s)]]
  }

  lemma TanhTable(lib: MathLib)
    ensures WellFormed(TanhGraph(lib)) && Table(lib, TanhGraph(lib)) == TanhEdges(TanhSlope(lib))
  {
    var G := TanhGraph(lib);
    assert LinksBack(G, 5) && LinksBack(G, 6) && LinksBack(G, 7) && LinksBack(G, 8) && LinksBack(G, 9);
    var T, E := Table(lib, G), TanhEdges(TanhSlope(lib));
    forall i | 0 <= i < 9 ensures T[i] == E[i] {
      assert T[i] == Partials(lib, G, i);
    }
    assert T[9] == E[9] by {
      var r := Rules(lib, Tanh(8), lib.tanh(TanhInput), TanhInput, 0.0);
      assert r[0] == Edge(8, TanhSlope(lib));
      assert T[9] == Partials(lib, G, 9) == r;
    }
  }

  /** Fires o = tanh(n) and n = (x1*w1 + x2*w2) + b. */
  lemma TanhFiresON(s: real)
    ensures GradDrain(TanhEdges(s), [0.0, 0.0, 0.0, 0.0, 0.0, 0.0, 0.0, 0.0, 0.0, 1.0], [9], {})
         == GradDrain(TanhEdges(s), [0.0, 0.0, 0.0, 0.0, s, 0.0, 0.0, s, s, 1.0], [7, 4], {9, 8})
  {
    var E := TanhEdges(s);
    var g0 := [0.0, 0.0, 0.0, 0.0, 0.0, 0.0, 0.0, 0.0, 0.0, 1.0];
    var g1 := [0.0, 0.0, 0.0, 0.0, 0.0, 0.0, 0.0, 0.0, s, 1.0];
    var g2 := [0.0, 0.0, 0.0, 0.0, s, 0.0, 0.0, s, s, 1.0];
    AccumulatedOne(g0, 8, s, 1.0);
    GradDrainFires(E, g0, [9], {}, g1, [8], {9});
    AccumulatedPair(g1, 7, 1.0, 4, 1.0, s);
    GradDrainFires(E, g1, [8], {9}, g2, [7, 4], {9, 8});
  }

  /** Fires x1*w1 + x2*w2, then skips the leaf b. */
  lemma TanhFiresSum(s: real)
    ensures GradDrain(TanhEdges(s), [0.0, 0.0, 0.0, 0.0, s, 0.0, 0.0, s, s, 1.0], [7, 4], {9, 8})
         == GradDrain(TanhEdges(s), [0.0, 0.0, 0.0, 0.0, s, s, s, s, s, 1.0], [5, 6], {9, 8, 7, 4})
  {
    var E := TanhEdges(s);
    var g2 := [0.0, 0.0, 0.0, 0.0, s, 0.0, 0.0, s, s, 1.0];
    var g3 := [0.0, 0.0, 0.0, 0.0, s, s, s, s, s, 1.0];
    AccumulatedPair(g2, 5, 1.0, 6, 1.0, s);
    GradDrainFires(E, g2, [7, 4], {9, 8}, g3, [4, 5, 6], {9, 8, 7});
    GradDrainSkipsLeaf(E, g3, [4, 5, 6], {9, 8, 7});
    assert [4, 5, 6][1..] == [5, 6] && {9, 8, 7} + {4} == {9, 8, 7, 4};
  }

  /** Fires x1*w1 (x1 = 2, w1 = -3). */
  lemma TanhFiresX1W1(s: real)
    ensures GradDrain(TanhEdges(s), [0.0, 0.0, 0.0, 0.0, s, s, s, s, s, 1.0], [5, 6], {9, 8, 7, 4})
         == GradDrain(TanhEdges(s), [-3.0 * s, 0.0, 2.0 * s, 0.0, s, s, s, s, s, 1.0], [6, 0, 2], {9, 8, 7, 4, 5})
  {
    var E := TanhEdges(s);
    var g3 := [0.0, 0.0, 0.0, 0.0, s, s, s, s, s, 1.0];
    var g4 := [-3.0 * s, 0.0, 2.0 * s, 0.0, s, s, s, s, s, 1.0];
    AccumulatedPair(g3, 0, -3.0, 2, 2.0, s);
    GradDrainFires(E, g3, [5, 6], {9, 8, 7, 4}, g4, [6, 0, 2], {9, 8, 7, 4, 5});
  }

  /** Fires x2*w2 (x2 = 0, w2 = 1); only leaves remain. */
  lemma TanhFiresX2W2(s: real)
    ensures GradDrain(TanhEdges(s), [-3.0 * s, 0.0, 2.0 * s, 0.0, s, s, s, s, s, 1.0], [6, 0, 2], {9, 8, 7, 4, 5})
         == [-3.0 * s, s, 2.0 * s, 0.0, s, s, s, s, s, 1.0]
  {
    var E := TanhEdges(s);
    var g4 := [-3.0 * s, 0.0, 2.0 * s, 0.0, s, s, s, s, s, 1.0];
    var g5 := [-3.0 * s, s, 2.0 * s, 0.0, s, s, s, s, s, 1.0];
    AccumulatedPair(g4, 1, 1.0, 3, 0.0, s);
    GradDrainFires(E, g4, [6, 0, 2], {9, 8, 7, 4, 5}, g5, [0, 2, 1, 3], {9, 8, 7, 4, 5, 6});
    GradDrainLeaves(E, g5, [0, 2, 1, 3], {9, 8, 7, 4, 5, 6});
  }

  /**
   * value.rs:249-271 over reals, with s = 1 - tanh(n)^2: n, x1*w1 + x2*w2,
   * x1*w1, x2*w2 and x2 get s, x1 gets -3s, w1 gets 2s and w2 gets 0. The
   * test's expected values are these at s = 1/2, i.e. when tanh(n)^2 = 1/2.
   */
  lemma SimpleTanhGrads(lib: MathLib)
    ensures WellFormed(TanhGraph(lib))
    ensures var s := TanhSlope(lib);
      Grads(Run(lib, TanhGraph(lib), 9).nodes) == [-3.0 * s, s, 2.0 * s, 0.0, s, s, s, s, s, 1.0]
  {
    TanhRun(lib);
    TanhDrain(TanhSlope(lib));
  }

  /** The run, followed on gradients along the graph's edges. */
  lemma TanhRun(lib: MathLib)
    ensures WellFormed(TanhGraph(lib))
    ensures Grads(Run(lib, TanhGraph(lib), 9).nodes)
         == GradDrain(TanhEdges(TanhSlope(lib)), [0.0, 0.0, 0.0, 0.0, 0.0, 0.0, 0.0, 0.0, 0.0, 1.0], [9], {})
  {
    var G := TanhGraph(lib);
    TanhTable(lib);
    assert Grads(Seed(G, 9)) == [0.0, 0.0, 0.0, 0.0, 0.0, 0.0, 0.0, 0.0, 0.0, 1.0];
    RunGrads(lib, G, 9);
  }

  /** The whole drain along the edges of the graph, for any slope s of the tanh node. */
  lemma TanhDrain(s: real)
    ensures GradDrain(TanhEdges(s), [0.0, 0.0, 0.0, 0.0, 0.0, 0.0, 0.0, 0.0, 0.0, 1.0], [9], {})
         == [-3.0 * s, s, 2.0 * s, 0.0, s, s, s, s, s, 1.0]
  {
    TanhFiresON(s);
    TanhFiresSum(s);
    TanhFiresX1W1(s);
    TanhFiresX2W2(s);
  }

  /** The values the test expects, obtained where tanh(n)^2 = 1/2 (tanh(n) = 0.7071...). */
  lemma SimpleTanhAtHalf(lib: MathLib)
    ensures WellFormed(TanhGraph(lib))
    ensures lib.tanh(TanhInput) * lib.tanh(TanhInput) == 0.5 ==>
      Grads(Run(lib, TanhGraph(lib), 9).nodes) == [-1.5, 0.5, 1.0, 0.0, 0.5, 0.5, 0.5, 0.5, 0.5, 1.0]
  {
    SimpleTanhGrads(lib);
    if lib.tanh(TanhInput) * lib.tanh(TanhInput) == 0.5 {
      assert TanhSlope(lib) == 0.5;
    }
  }

  /** The neuron's inputs, weights and bias, built with the constructors. */
  method BuildTanhLeaves(lib: MathLib) returns (g: Graph)
    ensures fresh(g) && g.Valid() && g.lib == lib && g.nodes == TanhGraph(lib)[..5]
  {
    g := new Graph(lib);
    var x1 := g.New(2.0);
    var x2 := g.New(0.0);
    var w1 := g.New(-3.0);
    assert g.nodes == TanhGraph(lib)[..3];
    var w2 := g.New(1.0);
    var b := g.New(6.8813735870195432);
  }

  /** The graph of `simple_tanh`, built with the constructors; returns o. */
  method BuildTanh(lib: MathLib) returns (g: Graph, o: nat)
    ensures fresh(g) && g.Valid() && g.lib == lib && g.nodes == TanhGraph(lib) && o == 9
  {
    g := BuildTanhLeaves(lib);
    var x1w1 := g.Mul(0, 2);
    var x2w2 := g.Mul(1, 3);
    assert g.nodes == TanhGraph(lib)[..7];
    var x1w1x2w2 := g.Add(x1w1, x2w2);
    var n := g.Add(x1w1x2w2, 4);
    assert g.nodes == TanhGraph(lib)[..9];
    o := g.Tanh(n);
  }

  method SimpleTanh(lib: MathLib) returns (grads: seq<real>)
    ensures var s := TanhSlope(lib);
      grads == [-3.0 * s, s, 2.0 * s, 0.0, s, s, s, s, s, 1.0]
  {
    var g, o := BuildTanh(lib);
    g.Backward(o);
    SimpleTanhGrads(lib);
    grads := Grads(g.nodes);
  }

  // ---------------------------------------------------------------------
  // exp_test: x = 2, f = exp(x)

  function ExpGraph(lib: MathLib): seq<Value> {
    [Leaf(2.0), Value(lib.exp(2.0), 0.0, Some(Exp(0)))]
  }

  /** value.rs:305-313: x.grad = exp(2) (about 7.389) and f.grad = 1. */
  lemma ExpGrads(lib: MathLib)
    ensures WellFormed(ExpGraph(lib))
    ensures Grads(Run(lib, ExpGraph(lib), 1).nodes) == [lib.exp(2.0), 1.0]
  {
    var G := ExpGraph(lib);
    assert LinksBack(G, 1);
    var E := Table(lib, G);
    assert E == [[], [Edge(0, lib.exp(2.0))]] by {
      assert E[0] == Partials(lib, G, 0) && E[1] == Partials(lib, G, 1);
    }
    var g0 := [0.0, 1.0];
    assert Grads(Seed(G, 1)) == g0;
    RunGrads(lib, G, 1);
    AccumulatedOne(g0, 0, lib.exp(2.0), 1.0);
    GradDrainFires(E, g0, [1], {}, [lib.exp(2.0), 1.0], [0], {1});
    GradDrainLeaves(E, [lib.exp(2.0), 1.0], [0], {1});
  }

  method ExpTest(lib: MathLib) returns (xGrad: real, fGrad: real)
    ensures xGrad == lib.exp(2.0) && fGrad == 1.0
  {
    var g := new Graph(lib);
    var x := g.New(2.0);
    var f := g.Exp(x);
    assert g.nodes == ExpGraph(lib);
    g.Backward(f);
    ExpGrads(lib);
    assert Grads(g.nodes)[0] == g.nodes[x].grad;
    xGrad, fGrad := g.nodes[x].grad, g.nodes[f].grad;
  }

  // ---------------------------------------------------------------------
  // doubly_referenced_addition and doubly_referenced_multiplication

  /**
   * value.rs:315-321: `add(a, a)` reaches a along both edges and the two
   * contributions are summed, so a gets 2 whatever its data.
   */
  lemma AddSelfGrads(lib: MathLib, x: real)
    ensures WellFormed([Leaf(x), Value(x + x, 0.0, Some(Add(0, 0)))])
    ensures Grads(Run(lib, [Leaf(x), Value(x + x, 0.0, Some(Add(0, 0)))], 1).nodes) == [2.0, 1.0]
  {
    var G := [Leaf(x), Value(x + x, 0.0, Some(Add(0, 0)))];
    assert LinksBack(G, 1);
    var E := Table(lib, G);
    assert E == [[], [Edge(0, 1.0), Edge(0, 1.0)]] by {
      assert E[0] == Partials(lib, G, 0) && E[1] == Partials(lib, G, 1);
    }
    var g0 := [0.0, 1.0];
    assert Grads(Seed(G, 1)) == g0;
    RunGrads(lib, G, 1);
    AccumulatedTwice(g0, 0, 1.0, 1.0, 1.0);
    GradDrainFires(E, g0, [1], {}, [2.0, 1.0], [0, 0], {1});
    GradDrainLeaves(E, [2.0, 1.0], [0, 0], {1});
  }

  /** value.rs:323-329: `mul(a, a)` gives a the sum 2 * a.data; 6 for a = 3. */
  lemma MulSelfGrads(lib: MathLib, x: real)
    ensures WellFormed([Leaf(x), Value(x * x, 0.0, Some(Mul(0, 0)))])
    ensures Grads(Run(lib, [Leaf(x), Value(x * x, 0.0, Some(Mul(0, 0)))], 1).nodes) == [2.0 * x, 1.0]
  {
    var G := [Leaf(x), Value(x * x, 0.0, Some(Mul(0, 0)))];
    assert LinksBack(G, 1);
    var E := Table(lib, G);
    assert E == [[], [Edge(0, x), Edge(0, x)]] by {
      assert E[0] == Partials(lib, G, 0) && E[1] == Partials(lib, G, 1);
    }
    var g0 := [0.0, 1.0];
    assert Grads(Seed(G, 1)) == g0;
    RunGrads(lib, G, 1);
    AccumulatedTwice(g0, 0, x, x, 1.0);
    GradDrainFires(E, g0, [1], {}, [2.0 * x, 1.0], [0, 0], {1});
    GradDrainLeaves(E, [2.0 * x, 1.0], [0, 0], {1});
  }

  method DoublyReferencedAddition(lib: MathLib) returns (aGrad: real)
    ensures aGrad == 2.0
  {
    var g := new Graph(lib);
    var a := g.New(3.0);
    var b := g.Add(a, a);
    assert g.nodes == [Leaf(3.0), Value(3.0 + 3.0, 0.0, Some(Add(0, 0)))];
    g.Backward(b);
    AddSelfGrads(lib, 3.0);
    assert Grads(g.nodes)[0] == g.nodes[a].grad;
    aGrad := g.nodes[a].grad;
  }

  method DoublyReferencedMultiplication(lib: MathLib) returns (aGrad: real)
    ensures aGrad == 6.0
  {
    var g := new Graph(lib);
    var a := g.New(3.0);
    var b := g.Mul(a, a);
    assert g.nodes == [Leaf(3.0), Value(3.0 * 3.0, 0.0, Some(Mul(0, 0)))];
    g.Backward(b);
    MulSelfGrads(lib, 3.0);
    assert Grads(g.nodes)[0] == g.nodes[a].grad;
    aGrad := g.nodes[a].grad;
  }

  // ---------------------------------------------------------------------
  // fully_connected_layer: a = -2, b = 3, c = a+b, d = a*b, e = c*d

  function LayerGraph(): seq<Value> {
    [Leaf(-2.0), Leaf(3.0),
     Value(1.0, 0.0, Some(Add(0, 1))),
     Value(-6.0, 0.0, Some(Mul(0, 1))),
     Value(-6.0, 0.0, Some(Mul(2, 3)))]
  }

  /** The edges of the graph. */
  function LayerEdges(): seq<seq<Edge>> {
    [[], [], [Edge(0, 1.0), Edge(1, 1.0)], [Edge(0, 3.0), Edge(1, -2.0)], [Edge(2, -6.0), Edge(3, 1.0)]]
  }

  lemma LayerTable(lib: MathLib)
    ensures WellFormed(LayerGraph()) && Table(lib, LayerGraph()) == LayerEdges()
  {
    var G := LayerGraph();
    assert LinksBack(G, 2) && LinksBack(G, 3) && LinksBack(G, 4);
    var T := Table(lib, G);
    forall i | 0 <= i < 5 ensures T[i] == LayerEdges()[i] {
      assert T[i] == Partials(lib, G, i);
    }
  }

  /** Fires e = c * d (c = 1, d = -6) and c = a + b. */
  lemma LayerFiresEC()
    ensures GradDrain(LayerEdges(), [0.0, 0.0, 0.0, 0.0, 1.0], [4], {})
         == GradDrain(LayerEdges(), [-6.0, -6.0, -6.0, 1.0, 1.0], [3, 0, 1], {4, 2})
  {
    var E := LayerEdges();
    var g0, g1, g2 := [0.0, 0.0, 0.0, 0.0, 1.0], [0.0, 0.0, -6.0, 1.0, 1.0], [-6.0, -6.0, -6.0, 1.0, 1.0];
    AccumulatedPair(g0, 2, -6.0, 3, 1.0, 1.0);
    GradDrainFires(E, g0, [4], {}, g1, [2, 3], {4});
    AccumulatedPair(g1, 0, 1.0, 1, 1.0, -6.0);
    GradDrainFires(E, g1, [2, 3], {4}, g2, [3, 0, 1], {4, 2});
  }

  /** Fires d = a * b (a = -2, b = 3); only leaves remain. */
  lemma LayerFiresD()
    ensures GradDrain(LayerEdges(), [-6.0, -6.0, -6.0, 1.0, 1.0], [3, 0, 1], {4, 2})
         == [-3.0, -8.0, -6.0, 1.0, 1.0]
  {
    var E := LayerEdges();
    var g2, g3 := [-6.0, -6.0, -6.0, 1.0, 1.0], [-3.0, -8.0, -6.0, 1.0, 1.0];
    AccumulatedPair(g2, 0, 3.0, 1, -2.0, 1.0);
    GradDrainFires(E, g2, [3, 0, 1], {4, 2}, g3, [0, 1, 0, 1], {4, 2, 3});
    GradDrainLeaves(E, g3, [0, 1, 0, 1], {4, 2, 3});
  }

  /** value.rs:331-346: a = -3, b = -8, c = -6, d = 1, e = 1. */
  lemma FullyConnectedLayerGrads(lib: MathLib)
    ensures WellFormed(LayerGraph())
    ensures Grads(Run(lib, LayerGraph(), 4).nodes) == [-3.0, -8.0, -6.0, 1.0, 1.0]
  {
    var G := LayerGraph();
    LayerTable(lib);
    assert Grads(Seed(G, 4)) == [0.0, 0.0, 0.0, 0.0, 1.0];
    RunGrads(lib, G, 4);
    LayerFiresEC();
    LayerFiresD();
  }

  method FullyConnectedLayer(lib: MathLib) returns (grads: seq<real>)
    ensures grads == [-3.0, -8.0, -6.0, 1.0, 1.0]
  {
    var g := new Graph(lib);
    var a := g.New(-2.0);
    var b := g.New(3.0);
    var c := g.Add(a, b);
    var d := g.Mul(a, b);
    var e := g.Mul(c, d);
    assert g.nodes == LayerGraph();
    g.Backward(e);
    FullyConnectedLayerGrads(lib);
    grads := Grads(g.nodes);
  }

  // ---------------------------------------------------------------------
  // pow_test: a = 2, b = 3, c = a^b

  function PowGraph(lib: MathLib): seq<Value> {
    [Leaf(2.0), Leaf(3.0), Value(lib.powf(2.0, 3.0), 0.0, Some(Pow(0, 1)))]
  }

  /**
   * value.rs:348-362: a gets 3 * 2^2 (12 when powf(2, 2) = 4) and b gets
   * 2^3 * ln 2, both in terms of the math library.
   */
  lemma PowGrads(lib: MathLib)
    ensures WellFormed(PowGraph(lib))
    ensures Grads(Run(lib, PowGraph(lib), 2).nodes)
         == [3.0 * lib.powf(2.0, 2.0), lib.powf(2.0, 3.0) * lib.ln(2.0), 1.0]
    ensures lib.powf(2.0, 2.0) == 4.0 ==> Run(lib, PowGraph(lib), 2).nodes[0].grad == 12.0
  {
    var G := PowGraph(lib);
    assert LinksBack(G, 2);
    var g0 := [0.0, 0.0, 1.0];
    var g1 := [3.0 * lib.powf(2.0, 2.0), lib.powf(2.0, 3.0) * lib.ln(2.0), 1.0];
    assert Grads(Seed(G, 2)) == g0;
    RunGrads(lib, G, 2);
    var la, lb := 3.0 * lib.powf(2.0, 2.0), lib.powf(2.0, 3.0) * lib.ln(2.0);
    var E := Table(lib, G);
    assert E == [[], [], [Edge(0, la), Edge(1, lb)]] by {
      assert lib.powf(2.0, 3.0 - 1.0) == lib.powf(2.0, 2.0);
      var r := Rules(lib, Pow(0, 1), lib.powf(2.0, 3.0), 2.0, 3.0);
      assert r[0] == Edge(0, la) && r[1] == Edge(1, lb);
      assert E[0] == Partials(lib, G, 0) && E[1] == Partials(lib, G, 1) && E[2] == Partials(lib, G, 2);
    }
    AccumulatedPair(g0, 0, la, 1, lb, 1.0);
    GradDrainFires(E, g0, [2], {}, g1, [0, 1], {2});
    GradDrainLeaves(E, g1, [0, 1], {2});
    assert Grads(Run(lib, G, 2).nodes)[0] == Run(lib, G, 2).nodes[0].grad;
  }

  method PowTest(lib: MathLib) returns (grads: seq<real>)
    ensures grads == [3.0 * lib.powf(2.0, 2.0), lib.powf(2.0, 3.0) * lib.ln(2.0), 1.0]
  {
    var g := new Graph(lib);
    var a := g.New(2.0);
    var b := g.New(3.0);
    var c := g.Pow(a, b);
    assert g.nodes == PowGraph(lib);
    g.Backward(c);
    PowGrads(lib);
    grads := Grads(g.nodes);
  }

  // ---------------------------------------------------------------------
  // div_test: a = 4, b = 2, c = a / b

  function DivGraph(): seq<Value> {
    [Leaf(4.0), Leaf(2.0), Value(2.0, 0.0, Some(Div(0, 1)))]
  }

  /** value.rs:364-377: c = 2, a gets 1/2 and b gets -1. */
  lemma DivGrads(lib: MathLib)
    ensures WellFormed(DivGraph())
    ensures Grads(Run(lib, DivGraph(), 2).nodes) == [0.5, -1.0, 1.0]
  {
    var G := DivGraph();
    assert LinksBack(G, 2);
    var g0, g1 := [0.0, 0.0, 1.0], [0.5, -1.0, 1.0];
    assert Grads(Seed(G, 2)) == g0;
    RunGrads(lib, G, 2);
    var E := Table(lib, G);
    assert E == [[], [], [Edge(0, 0.5), Edge(1, -1.0)]] by {
      assert E[0] == Partials(lib, G, 0) && E[1] == Partials(lib, G, 1) && E[2] == Partials(lib, G, 2);
    }
    AccumulatedPair(g0, 0, 0.5, 1, -1.0, 1.0);
    GradDrainFires(E, g0, [2], {}, g1, [0, 1], {2});
    GradDrainLeaves(E, g1, [0, 1], {2});
  }

  method DivTest(lib: MathLib) returns (data: real, grads: seq<real>)
    ensures data == 2.0 && grads == [0.5, -1.0, 1.0]
  {
    var g := new Graph(lib);
    var a := g.New(4.0);
    var b := g.New(2.0);
    var c := g.Div(a, b);
    assert g.nodes == DivGraph();
    data := g.nodes[c].data;
    g.Backward(c);
    DivGrads(lib);
    grads := Grads(g.nodes);
  }
}
