/**
 * The test of micrograd/src/lib.rs (lib.rs:92-117), and a graph on which the
 * loop without a visited set propagates one node twice.
 */
module LabelledTests {
  import opened Wrappers
  import opened LabelledEngine
  import opened LabelledGraph

  function Leaf(data: real, grad: real, name: string): Value {
    Value(data, grad, None, name)
  }

  /** The arena of the test, with the grads `gs`: a, b, c, e = a*b, d = e+c, f, L = d*f. */
  function TestGraph(gs: seq<real>): (nodes: seq<Value>)
    requires |gs| == 7
    ensures |nodes| == 7 && WellFormed(nodes) && Evaluated(nodes)
  {
    [Leaf(2.0, gs[0], "a"), Leaf(-3.0, gs[1], "b"), Leaf(10.0, gs[2], "c"),
     Value(-6.0, gs[3], Some(Mul(0, 1)), "e"), Value(4.0, gs[4], Some(Add(3, 2)), "d"),
     Leaf(-2.0, gs[5], "f"), Value(-8.0, gs[6], Some(Mul(4, 5)), "L")]
  }

  /** L, then d, propagated from the seeded arena. */
  lemma TestUpper()
    ensures var p0 := Pass(TestGraph([0.0, 0.0, 0.0, 0.0, 0.0, 0.0, 1.0]), [6], []);
      var p1 := Pass(TestGraph([0.0, 0.0, 0.0, 0.0, -2.0, 4.0, 1.0]), [4, 5], [6]);
      Step(p0) == p1 &&
      Step(p1) == Pass(TestGraph([0.0, 0.0, -2.0, -2.0, -2.0, 4.0, 1.0]), [5, 3, 2], [6, 4])
  {
  }

  /** f is a leaf, then e is propagated, then the leaves c, a and b leave the queue. */
  lemma TestLower()
    ensures var p2 := Pass(TestGraph([0.0, 0.0, -2.0, -2.0, -2.0, 4.0, 1.0]), [3, 2], [6, 4]);
      var p3 := Pass(TestGraph([6.0, -4.0, -2.0, -2.0, -2.0, 4.0, 1.0]), [2, 0, 1], [6, 4, 3]);
      Step(p2.(queue := [5, 3, 2])) == p2 && Step(p2) == p3 &&
      Step(p3) == p3.(queue := [0, 1]) && Step(p3.(queue := [0, 1])) == p3.(queue := [1]) &&
      Step(p3.(queue := [1])) == p3.(queue := [])
  {
  }

  /**
   * `backprop` from L: L is seeded with 1, d and f get -2 and 4, c and e get
   * -2, a and b get 6 and -4 (lib.rs:107-116); L, d and e are propagated, in
   * that order.
   */
  lemma TestBackprop()
    ensures var q := Run(TestGraph([0.0, 0.0, 0.0, 0.0, 0.0, 0.0, 0.0]), 6);
      q.nodes == TestGraph([6.0, -4.0, -2.0, -2.0, -2.0, 4.0, 1.0]) && q.fired == [6, 4, 3]
  {
    var p0 := Pass(TestGraph([0.0, 0.0, 0.0, 0.0, 0.0, 0.0, 1.0]), [6], []);
    assert Seed(TestGraph([0.0, 0.0, 0.0, 0.0, 0.0, 0.0, 0.0]), 6) == p0.nodes;
    var p1 := Pass(TestGraph([0.0, 0.0, 0.0, 0.0, -2.0, 4.0, 1.0]), [4, 5], [6]);
    var p2 := Pass(TestGraph([0.0, 0.0, -2.0, -2.0, -2.0, 4.0, 1.0]), [3, 2], [6, 4]);
    var p3 := Pass(TestGraph([6.0, -4.0, -2.0, -2.0, -2.0, 4.0, 1.0]), [2, 0, 1], [6, 4, 3]);
    TestUpper();
    TestLower();
    DrainStep(p0);
    DrainStep(p1);
    DrainStep(p2.(queue := [5, 3, 2]));
    DrainStep(p2);
    DrainStep(p3);
    DrainStep(p3.(queue := [0, 1]));
    DrainStep(p3.(queue := [1]));
  }

  /** The graph of the test, built with the constructors; returns L. */
  method BuildTest() returns (g: Graph, l: nat)
    ensures fresh(g) && g.Valid() && g.nodes == TestGraph([0.0, 0.0, 0.0, 0.0, 0.0, 0.0, 0.0]) && l == 6
  {
    g := new Graph();
    var a := g.New(2.0, "a");
    var b := g.New(-3.0, "b");
    var c := g.New(10.0, "c");
    var e := g.Mul(a, b, "e");
    var d := g.Add(e, c, "d");
    var f := g.New(-2.0, "f");
    l := g.Mul(d, f, "L");
  }

  /**
   * The test itself (lib.rs:92-117): builds the graph with the constructors,
   * reads e, d and L, runs `backprop` from L and reads every grad.
   */
  method TestBackpropMethod() returns (data: seq<real>, grads: seq<real>)
    ensures data == [-6.0, 4.0, -8.0]
    ensures grads == [6.0, -4.0, -2.0, -2.0, -2.0, 4.0, 1.0]
  {
    var g, l := BuildTest();
    data := [g.nodes[3].data, g.nodes[4].data, g.nodes[l].data];
    g.Backprop(l);
    TestBackprop();
    grads := [g.nodes[0].grad, g.nodes[1].grad, g.nodes[2].grad, g.nodes[3].grad, g.nodes[4].grad,
              g.nodes[5].grad, g.nodes[l].grad];
  }

  /** A square: a, b, k = a+b, L = k*k, with the grads `gs`. */
  function SquareGraph(gs: seq<real>): (nodes: seq<Value>)
    requires |gs| == 4
    ensures |nodes| == 4 && WellFormed(nodes) && Evaluated(nodes)
  {
    [Leaf(1.0, gs[0], "a"), Leaf(2.0, gs[1], "b"), Value(3.0, gs[2], Some(Add(0, 1)), "k"),
     Value(9.0, gs[3], Some(Mul(2, 2)), "L")]
  }

  /** L, then k twice, propagated from the seeded arena. */
  lemma SquareUpper()
    ensures var p0 := Pass(SquareGraph([0.0, 0.0, 0.0, 1.0]), [3], []);
      var p1 := Pass(SquareGraph([0.0, 0.0, 3.0, 1.0]), [2, 2], [3]);
      var p2 := Pass(SquareGraph([3.0, 3.0, 3.0, 1.0]), [2, 0, 1], [3, 2]);
      Step(p0) == p1 && Step(p1) == p2 && Step(p2) == Pass(p2.nodes, [0, 1, 0, 1], [3, 2, 2])
  {
  }

  /** Four leaves leave the queue. */
  lemma SquareLower()
    ensures var p3 := Pass(SquareGraph([3.0, 3.0, 3.0, 1.0]), [0, 1, 0, 1], [3, 2, 2]);
      Step(p3) == p3.(queue := [1, 0, 1]) && Step(p3.(queue := [1, 0, 1])) == p3.(queue := [0, 1]) &&
      Step(p3.(queue := [0, 1])) == p3.(queue := [1]) && Step(p3.(queue := [1])) == p3.(queue := [])
  {
  }

  /**
   * On L = k*k the queue holds k twice and k is propagated twice; the grad of
   * k is the last write, 3, where dL/dk = 2k = 6.
   */
  lemma SquareFiresTwice()
    ensures var q := Run(SquareGraph([0.0, 0.0, 0.0, 0.0]), 3);
      q.fired == [3, 2, 2] && q.nodes == SquareGraph([3.0, 3.0, 3.0, 1.0])
  {
    var p0 := Pass(SquareGraph([0.0, 0.0, 0.0, 1.0]), [3], []);
    assert Seed(SquareGraph([0.0, 0.0, 0.0, 0.0]), 3) == p0.nodes;
    var p1 := Pass(SquareGraph([0.0, 0.0, 3.0, 1.0]), [2, 2], [3]);
    var p2 := Pass(SquareGraph([3.0, 3.0, 3.0, 1.0]), [2, 0, 1], [3, 2]);
    var p3 := Pass(p2.nodes, [0, 1, 0, 1], [3, 2, 2]);
    SquareUpper();
    SquareLower();
    DrainStep(p0);
    DrainStep(p1);
    DrainStep(p2);
    DrainStep(p3);
    DrainStep(p3.(queue := [1, 0, 1]));
    DrainStep(p3.(queue := [0, 1]));
    DrainStep(p3.(queue := [1]));
  }

  /** a and s = a + a, with the grads `gs`. */
  function DoubleGraph(gs: seq<real>): (nodes: seq<Value>)
    requires |gs| == 2
    ensures |nodes| == 2 && WellFormed(nodes) && Evaluated(nodes)
  {
    [Leaf(3.0, gs[0], "a"), Value(6.0, gs[1], Some(Add(0, 0)), "s")]
  }

  /**
   * On s = a + a both writes set a's grad to 1, so a ends with 1 where
   * ds/da = 2: the overwrite keeps one contribution of the two.
   */
  lemma DoubleKeepsOne()
    ensures Run(DoubleGraph([0.0, 0.0]), 1).nodes == DoubleGraph([1.0, 1.0])
  {
    var p0 := Pass(DoubleGraph([0.0, 1.0]), [1], []);
    assert Seed(DoubleGraph([0.0, 0.0]), 1) == p0.nodes;
    var p1 := Pass(DoubleGraph([1.0, 1.0]), [0, 0], [1]);
    assert Step(p0) == p1;
    assert Step(p1) == p1.(queue := [0]);
    assert Step(p1.(queue := [0])) == p1.(queue := []);
    DrainStep(p0);
    DrainStep(p1);
    DrainStep(p1.(queue := [0]));
  }
}
