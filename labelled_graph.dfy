/**
 * The objects of micrograd/src/lib.rs: an arena in which the constructors
 * allocate fresh labelled nodes and in which `Backprop` overwrites the
 * gradients in place, as the `Rc<Value>` nodes with `Cell` fields do.
 */
module LabelledGraph {
  import opened Wrappers
  import opened LabelledEngine

  /** Appending a node built from earlier nodes, with its data computed from theirs, keeps the arena valid. */
  lemma AppendKeepsValid(nodes: seq<Value>, v: Value)
    requires WellFormed(nodes) && Evaluated(nodes)
    requires v.op.Some? ==> v.op.value.lhs < |nodes| && v.op.value.rhs < |nodes| && v.data == Eval(nodes, v.op.value)
    ensures WellFormed(nodes + [v]) && Evaluated(nodes + [v])
  {
    var grown := nodes + [v];
    forall i | 0 <= i < |grown| ensures LinksBack(grown, i) {
      if i < |nodes| {
        assert LinksBack(nodes, i);
      }
    }
    forall i | 0 <= i < |grown| && grown[i].op.Some?
      ensures grown[i].data == Eval(grown, grown[i].op.value)
    {
      if i < |nodes| {
        assert LinksBack(nodes, i);
        assert nodes[i].data == Eval(nodes, nodes[i].op.value);
      }
    }
  }

  class Graph {
    /** Every node allocated so far; a node's index is its identity. */
    var nodes: seq<Value>

    ghost predicate Valid()
      reads this
    {
      WellFormed(nodes) && Evaluated(nodes)
    }

    constructor ()
      ensures Valid() && nodes == []
    {
      nodes := [];
    }

    /** `Value::new` (lib.rs:31-39): a fresh leaf holding `data` and the label, with grad 0. */
    method New(data: real, name: string) returns (r: nat)
      requires Valid()
      modifies this
      ensures Valid() && r == |old(nodes)|
      ensures nodes == old(nodes) + [Value(data, 0.0, None, name)]
    {
      AppendKeepsValid(nodes, Value(data, 0.0, None, name));
      r := |nodes|;
      nodes := nodes + [Value(data, 0.0, None, name)];
    }

    /** `Value::add` (lib.rs:41-50). */
    method Add(lhs: nat, rhs: nat, name: string) returns (r: nat)
      requires Valid() && lhs < |nodes| && rhs < |nodes|
      modifies this
      ensures Valid() && r == |old(nodes)|
      ensures nodes == old(nodes) + [Value(old(nodes)[lhs].data + old(nodes)[rhs].data, 0.0, Some(Op.Add(lhs, rhs)), name)]
    {
      var v := Value(nodes[lhs].data + nodes[rhs].data, 0.0, Some(Op.Add(lhs, rhs)), name);
      AppendKeepsValid(nodes, v);
      r := |nodes|;
      nodes := nodes + [v];
    }

    /** `Value::mul` (lib.rs:52-61). */
    method Mul(lhs: nat, rhs: nat, name: string) returns (r: nat)
      requires Valid() && lhs < |nodes| && rhs < |nodes|
      modifies this
      ensures Valid() && r == |old(nodes)|
      ensures nodes == old(nodes) + [Value(old(nodes)[lhs].data * old(nodes)[rhs].data, 0.0, Some(Op.Mul(lhs, rhs)), name)]
    {
      var v := Value(nodes[lhs].data * nodes[rhs].data, 0.0, Some(Op.Mul(lhs, rhs)), name);
      AppendKeepsValid(nodes, v);
      r := |nodes|;
      nodes := nodes + [v];
    }

    /**
     * The body of one iteration of `backprop` (lib.rs:68-83) for the node
     * `current` just dequeued: for an addition set both
     * operands' grads to current's grad, for a multiplication to current's grad
     * times the other operand's data, and return the operands, lhs first, to
     * be enqueued.
     */
    method Fire(current: nat) returns (operands: seq<nat>)
      requires WellFormed(nodes) && current < |nodes|
      modifies this
      ensures nodes == Written(old(nodes), current)
      ensures operands == Operands(old(nodes), current)
    {
      ghost var before := nodes;
      assert LinksBack(nodes, current);
      operands := [];
      match nodes[current].op {
        case None =>
        case Some(Add(lhs, rhs)) =>
          ghost var g := nodes[current].grad;
          nodes := nodes[lhs := nodes[lhs].(grad := nodes[current].grad)];
          // lhs is an earlier node, so current's grad is read back unchanged.
          assert nodes[current].grad == g;
          nodes := nodes[rhs := nodes[rhs].(grad := nodes[current].grad)];
          assert nodes == SetGrad(SetGrad(before, lhs, g), rhs, g);
          operands := [lhs, rhs];
        case Some(Mul(lhs, rhs)) =>
          var dlhs := nodes[current].grad * nodes[rhs].data;
          nodes := nodes[lhs := nodes[lhs].(grad := dlhs)];
          // Neither write touches current's grad or any node's data.
          assert nodes[current].grad == before[current].grad && nodes[lhs].data == before[lhs].data;
          var drhs := nodes[current].grad * nodes[lhs].data;
          nodes := nodes[rhs := nodes[rhs].(grad := drhs)];
          WrittenMul(before, current, lhs, rhs, dlhs, drhs);
          operands := [lhs, rhs];
      }
    }

    /**
     * The `while let` loop of `backprop` (lib.rs:67-84): dequeue the front
     * node and fire it, until the queue is empty; nothing records which nodes
     * were already seen.
     */
    method DrainQueue(queue0: seq<nat>, ghost fired0: seq<nat>)
      requires Inv(Pass(nodes, queue0, fired0))
      modifies this
      ensures nodes == Drain(Pass(old(nodes), queue0, fired0)).nodes
    {
      var queue: seq<nat> := queue0;
      ghost var fired: seq<nat> := fired0;
      ghost var target := Drain(Pass(nodes, queue, fired));
      while queue != []
        invariant Inv(Pass(nodes, queue, fired))
        invariant Drain(Pass(nodes, queue, fired)) == target
        decreases Potential(queue)
      {
        ghost var before := Pass(nodes, queue, fired);
        StepDecreases(before);
        DrainStep(before);
        var current := queue[0];
        queue := queue[1..];
        var operands := Fire(current);
        queue := queue + operands;
        if operands != [] {
          fired := fired + [current];
        }
        assert Pass(nodes, queue, fired) == Step(before);
      }
    }

    /**
     * `Value::backprop` (lib.rs:63-85): set the root's grad to 1, then run the
     * loop from a queue holding the root.
     */
    method Backprop(root: nat)
      requires Valid() && root < |nodes|
      modifies this
      ensures Valid()
      ensures nodes == Run(old(nodes), root).nodes
      ensures SameShape(old(nodes), nodes)
      ensures nodes[root].grad == 1.0
    {
      ghost var start := nodes;
      SameShapeWellFormed(nodes, Seed(nodes, root));
      nodes := nodes[root := nodes[root].(grad := 1.0)];
      DrainQueue([root], []);
      SameShapeEvaluated(start, nodes);
      RunSeedsRoot(start, root);
    }
  }
}
