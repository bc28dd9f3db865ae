/**
 * The full engine's objects (micrograd/src/value.rs): an arena in which the
 * constructors allocate fresh nodes and in which `Backward` updates the
 * gradients in place, as the `Rc<Value>` nodes with `Cell` fields do.
 */
module ValueGraph {
  import opened Wrappers
  import opened ValueNode
  import opened ValueBackward
  import opened ChainRule

  /**
   * Appending a node built from earlier nodes, with its data computed from
   * theirs, keeps the arena well formed and evaluated.
   */
  lemma AppendKeepsValid(lib: MathLib, nodes: seq<Value>, v: Value)
    requires WellFormed(nodes) && Evaluated(lib, nodes)
    requires v.op.Some? ==> Below(v.op.value, |nodes|)
    requires v.op.Some? && v.op.value.Div? ==> nodes[v.op.value.den].data != 0.0
    requires v.op.Some? ==> v.data == Eval(lib, nodes, v.op.value)
    ensures WellFormed(nodes + [v]) && Evaluated(lib, nodes + [v])
  {
    var grown := nodes + [v];
    forall i | 0 <= i < |grown| ensures LinksBack(grown, i) {
      if i < |nodes| {
        assert LinksBack(nodes, i);
      }
    }
    forall i | 0 <= i < |grown| && grown[i].op.Some?
      ensures grown[i].data == Eval(lib, grown, grown[i].op.value)
    {
      if i < |nodes| {
        assert LinksBack(nodes, i);
        assert nodes[i].data == Eval(lib, nodes, nodes[i].op.value);
      }
    }
  }

  class Graph {
    /** The math library the f64 methods `exp`, `tanh`, `powf` and `ln` stand for. */
    const lib: MathLib
    /** Every node allocated so far; a node's index is its identity. */
    var nodes: seq<Value>

    ghost predicate Valid()
      reads this
    {
      WellFormed(nodes) && Evaluated(lib, nodes)
    }

    constructor (lib: MathLib)
      ensures Valid() && this.lib == lib && nodes == []
    {
      this.lib := lib;
      nodes := [];
    }

    /** `Value::new` (value.rs:36-42): a fresh leaf holding `data`, with grad 0. */
    method New(data: real) returns (r: nat)
      requires Valid()
      modifies this
      ensures Valid() && r == |old(nodes)|
      ensures nodes == old(nodes) + [Value(data, 0.0, None)]
    {
      AppendKeepsValid(lib, nodes, Value(data, 0.0, None));
      r := |nodes|;
      nodes := nodes + [Value(data, 0.0, None)];
    }

    /** `Value::add` (value.rs:44-52). */
    method Add(a: nat, b: nat) returns (r: nat)
      requires Valid() && a < |nodes| && b < |nodes|
      modifies this
      ensures Valid() && r == |old(nodes)|
      ensures nodes == old(nodes) + [Value(old(nodes)[a].data + old(nodes)[b].data, 0.0, Some(Op.Add(a, b)))]
    {
      var v := Value(nodes[a].data + nodes[b].data, 0.0, Some(Op.Add(a, b)));
      AppendKeepsValid(lib, nodes, v);
      r := |nodes|;
      nodes := nodes + [v];
    }

    /** `Value::div` (value.rs:54-62); a zero denominator is excluded (f64 infinities are not modelled). */
    method Div(num: nat, den: nat) returns (r: nat)
      requires Valid() && num < |nodes| && den < |nodes| && nodes[den].data != 0.0
      modifies this
      ensures Valid() && r == |old(nodes)|
      ensures nodes == old(nodes) + [Value(old(nodes)[num].data / old(nodes)[den].data, 0.0, Some(Op.Div(num, den)))]
    {
      var v := Value(nodes[num].data / nodes[den].data, 0.0, Some(Op.Div(num, den)));
      AppendKeepsValid(lib, nodes, v);
      r := |nodes|;
      nodes := nodes + [v];
    }

    /** `Value::exp` (value.rs:64-71). */
    method Exp(x: nat) returns (r: nat)
      requires Valid() && x < |nodes|
      modifies this
      ensures Valid() && r == |old(nodes)|
      ensures nodes == old(nodes) + [Value(lib.exp(old(nodes)[x].data), 0.0, Some(Op.Exp(x)))]
    {
      var v := Value(lib.exp(nodes[x].data), 0.0, Some(Op.Exp(x)));
      AppendKeepsValid(lib, nodes, v);
      r := |nodes|;
      nodes := nodes + [v];
    }

    /** `Value::mul` (value.rs:73-81). */
    method Mul(a: nat, b: nat) returns (r: nat)
      requires Valid() && a < |nodes| && b < |nodes|
      modifies this
      ensures Valid() && r == |old(nodes)|
      ensures nodes == old(nodes) + [Value(old(nodes)[a].data * old(nodes)[b].data, 0.0, Some(Op.Mul(a, b)))]
    {
      var v := Value(nodes[a].data * nodes[b].data, 0.0, Some(Op.Mul(a, b)));
      AppendKeepsValid(lib, nodes, v);
      r := |nodes|;
      nodes := nodes + [v];
    }

    /** `Value::pow` (value.rs:83-91). */
    method Pow(base: nat, exponent: nat) returns (r: nat)
      requires Valid() && base < |nodes| && exponent < |nodes|
      modifies this
      ensures Valid() && r == |old(nodes)|
      ensures nodes == old(nodes) +
        [Value(lib.powf(old(nodes)[base].data, old(nodes)[exponent].data), 0.0, Some(Op.Pow(base, exponent)))]
    {
      var v := Value(lib.powf(nodes[base].data, nodes[exponent].data), 0.0, Some(Op.Pow(base, exponent)));
      AppendKeepsValid(lib, nodes, v);
      r := |nodes|;
      nodes := nodes + [v];
    }

    /** `Value::sub` (value.rs:93-101). */
    method Sub(a: nat, b: nat) returns (r: nat)
      requires Valid() && a < |nodes| && b < |nodes|
      modifies this
      ensures Valid() && r == |old(nodes)|
      ensures nodes == old(nodes) + [Value(old(nodes)[a].data - old(nodes)[b].data, 0.0, Some(Op.Sub(a, b)))]
    {
      var v := Value(nodes[a].data - nodes[b].data, 0.0, Some(Op.Sub(a, b)));
      AppendKeepsValid(lib, nodes, v);
      r := |nodes|;
      nodes := nodes + [v];
    }

    /** `Value::tanh` (value.rs:103-110). */
    method Tanh(x: nat) returns (r: nat)
      requires Valid() && x < |nodes|
      modifies this
      ensures Valid() && r == |old(nodes)|
      ensures nodes == old(nodes) + [Value(lib.tanh(old(nodes)[x].data), 0.0, Some(Op.Tanh(x)))]
    {
      var v := Value(lib.tanh(nodes[x].data), 0.0, Some(Op.Tanh(x)));
      AppendKeepsValid(lib, nodes, v);
      r := |nodes|;
      nodes := nodes + [v];
    }

    /**
     * The local derivatives that one non-skipped iteration of `backward`
     * (value.rs:121-204) computes for the current node, one per operand in the
     * order the operands are updated and enqueued; a leaf has none.
     */
    method LocalDerivatives(current: nat) returns (es: seq<Edge>)
      requires WellFormed(nodes) && current < |nodes|
      ensures es == Partials(lib, nodes, current)
      ensures |es| <= 2
    {
      assert LinksBack(nodes, current);
      var n := nodes;
      match n[current].op {
        case None =>
          es := [];
        case Some(op) =>
          match op {
            case Add(a, b) =>
              es := [Edge(a, 1.0), Edge(b, 1.0)];
              assert es == Rules(lib, op, n[current].data, n[a].data, n[b].data);
            case Mul(a, b) =>
              var dfda := n[b].data;
              var dfdb := n[a].data;
              es := [Edge(a, dfda), Edge(b, dfdb)];
              assert es == Rules(lib, op, n[current].data, n[a].data, n[b].data);
            case Tanh(x) =>
              // tanh(x) is already held in the current node's data.
              var dtanh := 1.0 - n[current].data * n[current].data;
              es := [Edge(x, dtanh)];
              ghost var r := Rules(lib, op, n[current].data, n[x].data, 0.0);
              assert es[0] == r[0];
              assert es == r;
            case Exp(x) =>
              var dexp := n[current].data;
              es := [Edge(x, dexp)];
              assert es == Rules(lib, op, n[current].data, n[x].data, 0.0);
            case Pow(base, exponent) =>
              var ym1 := n[exponent].data - 1.0;
              var xym1 := lib.powf(n[base].data, ym1);
              var yxym1 := n[exponent].data * xym1;
              var lnx := lib.ln(n[base].data);
              var xy := n[current].data;
              var xylnx := xy * lnx;
              es := [Edge(base, yxym1), Edge(exponent, xylnx)];
              ghost var r := Rules(lib, op, n[current].data, n[base].data, n[exponent].data);
              assert r[0] == Edge(base, n[exponent].data * lib.powf(n[base].data, n[exponent].data - 1.0));
              assert es[0] == r[0];
              assert es[1] == r[1];
              assert es == r;
            case Div(num, den) =>
              var dfdnum := 1.0 / n[den].data;
              var y2 := n[den].data * n[den].data;
              var nx := -1.0 * n[num].data;
              var dfdden := nx / y2;
              es := [Edge(num, dfdnum), Edge(den, dfdden)];
              ghost var r := Rules(lib, op, n[current].data, n[num].data, n[den].data);
              assert es[0] == r[0];
              assert es[1] == r[1];
              assert es == r;
            case Sub(lhs, rhs) =>
              es := [Edge(lhs, 1.0), Edge(rhs, -1.0)];
              assert es == Rules(lib, op, n[current].data, n[lhs].data, n[rhs].data);
          }
      }
    }

    /**
     * The body of one non-skipped iteration of `backward` (value.rs:121-204):
     * accumulate the current grad times each local derivative into the operands,
     * first operand first, and return the operands in the order they are enqueued.
     */
    method PropagateFrom(current: nat) returns (operands: seq<nat>)
      requires WellFormed(nodes) && current < |nodes|
      modifies this
      ensures nodes == Propagate(old(nodes), Partials(lib, old(nodes), current), old(nodes)[current].grad)
      ensures operands == Children(old(nodes), current)
    {
      var es := LocalDerivatives(current);
      var g := nodes[current].grad;
      var n := nodes;
      operands := [];
      if |es| > 0 {
        var e := es[0];
        var v := n[e.operand].grad + g * e.local;
        AddIntoSets(n, e, g, v);
        n := n[e.operand := n[e.operand].(grad := v)];
        operands := [e.operand];
      }
      if |es| > 1 {
        var e := es[1];
        var v := n[e.operand].grad + g * e.local;
        AddIntoSets(n, e, g, v);
        n := n[e.operand := n[e.operand].(grad := v)];
        operands := operands + [e.operand];
      }
      if |es| == 1 {
        PropagateOne(nodes, es[0], g);
      } else if |es| == 2 {
        PropagateTwo(nodes, es[0], es[1], g);
      }
      nodes := n;
    }

    /**
     * The `while let` loop of `backward` (value.rs:117-207): dequeue nodes
     * front to back, skip those already visited, accumulate into the operands'
     * grads and enqueue the operands, until the queue is empty.
     */
    method DrainQueue(queue0: seq<nat>, visited0: set<nat>, ghost fired0: seq<nat>)
      requires Inv(Pass(nodes, queue0, visited0, fired0))
      modifies this
      ensures nodes == Drain(lib, Pass(old(nodes), queue0, visited0, fired0)).nodes
    {
      var queue, visited := queue0, visited0;
      ghost var fired := fired0;
      ghost var target := Drain(lib, Pass(nodes, queue, visited, fired));
      while queue != []
        invariant Inv(Pass(nodes, queue, visited, fired))
        invariant Drain(lib, Pass(nodes, queue, visited, fired)) == target
        decreases Unvisited(Pass(nodes, queue, visited, fired)), |queue|
      {
        ghost var before := Pass(nodes, queue, visited, fired);
        ghost var after := Step(lib, before);
        assert Drain(lib, before) == Drain(lib, after);
        var current := queue[0];
        queue := queue[1..];
        if current in visited {
          assert Pass(nodes, queue, visited, fired) == after;
          continue;
        }
        var operands := PropagateFrom(current);
        queue := queue + operands;
        visited := visited + {current};
        fired := fired + [current];
        assert Pass(nodes, queue, visited, fired) == after;
        assert Unvisited(after) <= Unvisited(before);
        assert current in Unvisited(before) - Unvisited(after);
      }
    }

    /**
     * `Value::backward` (value.rs:112-208): seed the root's grad to 1, then
     * run the loop from a queue holding the root and an empty visited set.
     */
    method Backward(root: nat)
      requires Valid() && root < |nodes|
      modifies this
      ensures Valid()
      ensures nodes == Run(lib, old(nodes), root).nodes
      ensures SameShape(old(nodes), nodes)
      ensures nodes[root].grad == 1.0
      ensures forall j :: 0 <= j < |nodes| && j !in Desc(old(nodes), root) ==> nodes[j].grad == old(nodes)[j].grad
    {
      ghost var start := nodes;
      SameShapeWellFormed(nodes, Seed(nodes, root));
      nodes := nodes[root := nodes[root].(grad := 1.0)];
      DrainQueue([root], {}, []);
      SameShapeEvaluated(lib, start, nodes);
      RunSeedsRoot(lib, start, root);
      forall j | 0 <= j < |nodes| && j !in Desc(start, root) ensures nodes[j].grad == start[j].grad {
        RunOnlyReachable(lib, start, root, j);
      }
    }

    /** Fires nodes k - 1, k - 2, ..., 0 in that order, each once. */
    method SweepNodes(k0: nat)
      requires WellFormed(nodes) && k0 <= |nodes|
      modifies this
      ensures nodes == SweepDown(Table(lib, old(nodes)), old(nodes), k0)
    {
      ghost var start := nodes;
      ghost var E := Table(lib, nodes);
      ghost var target := SweepDown(E, nodes, k0);
      var k: nat := k0;
      while k > 0
        invariant k <= k0 && |nodes| == |start| && WellFormed(nodes) && SameShape(start, nodes)
        invariant SweepDown(E, nodes, k) == target
        decreases k
      {
        ghost var before := nodes;
        var _ := PropagateFrom(k - 1);
        SweepStep(lib, start, E, before, nodes, k, target);
        k := k - 1;
      }
      assert SweepDown(E, nodes, 0) == nodes;
    }

    /**
     * The corrected pass: seed the root's grad to 1, then fire the root and
     * every node below it once, in decreasing index order, so that each node
     * fires after all of its consumers. From zero gradients below the root
     * this leaves every node up to the root with d root / d node.
     */
    method BackwardSweep(root: nat)
      requires Valid() && root < |nodes|
      modifies this
      ensures Valid()
      ensures nodes == Sweep(lib, old(nodes), root)
      ensures (forall j :: 0 <= j < root ==> old(nodes)[j].grad == 0.0) ==>
        forall j: nat :: j <= root ==> nodes[j].grad == Derivative(lib, old(nodes), root, j)
    {
      ghost var start := nodes;
      TableIgnoresGrads(lib, nodes, Seed(nodes, root));
      nodes := nodes[root := nodes[root].(grad := 1.0)];
      SweepNodes(root + 1);
      SameShapeEvaluated(lib, start, nodes);
      SweepDerivatives(lib, start, root, nodes);
    }
  }
}
