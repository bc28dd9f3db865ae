/**
 * The backward pass of micrograd/src/value.rs followed on gradients alone:
 * since `backward` changes only `grad` (and reads `data` and `_op` of an arena
 * whose shape stays fixed), a run is determined by the gradient vector, the
 * queue and the visited set. This is what makes concrete graphs checkable.
 */
module ValueTrace {
  import opened Wrappers
  import opened ValueNode
  import opened ValueBackward

  /** The data vector of an arena. */
  function Datas(nodes: seq<Value>): (r: seq<real>)
    ensures |r| == |nodes| && forall i :: 0 <= i < |nodes| ==> r[i] == nodes[i].data
  {
    seq(|nodes|, i requires 0 <= i < |nodes| => nodes[i].data)
  }

  /** The gradient vector of an arena. */
  function Grads(nodes: seq<Value>): (r: seq<real>)
    ensures |r| == |nodes|
  {
    seq(|nodes|, i requires 0 <= i < |nodes| => nodes[i].grad)
  }

  /** The gradients after accumulating `g` times each edge of `es`. */
  function Accumulated(gs: seq<real>, es: seq<Edge>, g: real): (r: seq<real>)
    ensures |r| == |gs|
  {
    seq(|gs|, j requires 0 <= j < |gs| => gs[j] + g * Weight(es, j))
  }

  /**
   * One loop iteration on an arena shaped like G, whose table of edges is E,
   * in terms of gradients only, so that concrete runs can be followed step by step.
   */
  lemma Advance(lib: MathLib, G: seq<Value>, E: seq<seq<Edge>>, p: Pass) returns (q: Pass)
    requires WellFormed(G) && E == Table(lib, G) && Inv(p) && p.queue != [] && SameShape(G, p.nodes)
    ensures Inv(q) && SameShape(G, q.nodes)
    ensures Drain(lib, p) == Drain(lib, q)
    ensures var c := p.queue[0];
      if c in p.visited then
        q.queue == p.queue[1..] && q.visited == p.visited && Grads(q.nodes) == Grads(p.nodes)
      else
        q.queue == p.queue[1..] + Targets(E[c]) && q.visited == p.visited + {c} &&
        Grads(q.nodes) == Accumulated(Grads(p.nodes), E[c], p.nodes[c].grad)
  {
    q := Step(lib, p);
    var c := p.queue[0];
    var es := Partials(lib, p.nodes, c);
    PartialsIgnoreGrads(lib, G, p.nodes, c);
    TableAt(lib, G, c);
    PartialsTargets(lib, p.nodes, c);
    forall j | 0 <= j < |p.nodes| ensures Grads(q.nodes)[j] ==
      if c in p.visited then Grads(p.nodes)[j]
      else Accumulated(Grads(p.nodes), es, p.nodes[c].grad)[j]
    {
      StepAccumulates(lib, p, j, es, p.nodes[c].grad);
    }
  }

  /** The unsettled indices of an arena of `n` nodes. */
  function Unsettled(n: nat, visited: set<nat>): set<nat> {
    set i: nat | i < n && i !in visited
  }

  /** `Drain` followed on gradients alone, along a table of edges E. */
  function GradDrain(E: seq<seq<Edge>>, gs: seq<real>, queue: seq<nat>, visited: set<nat>): (r: seq<real>)
    requires BackEdges(E) && |gs| == |E| && forall k :: 0 <= k < |queue| ==> queue[k] < |E|
    ensures |r| == |E|
    decreases Unsettled(|E|, visited), |queue|
  {
    if queue == [] then gs
    else
      var c := queue[0];
      if c in visited then GradDrain(E, gs, queue[1..], visited)
      else
        assert Unsettled(|E|, visited + {c}) < Unsettled(|E|, visited) by {
          assert c in Unsettled(|E|, visited);
        }
        GradDrain(E, Accumulated(gs, E[c], gs[c]), queue[1..] + Targets(E[c]), visited + {c})
  }

  lemma {:induction false} DrainGrads(lib: MathLib, G: seq<Value>, E: seq<seq<Edge>>, p: Pass)
    requires WellFormed(G) && E == Table(lib, G) && Inv(p) && SameShape(G, p.nodes)
    ensures Grads(Drain(lib, p).nodes) == GradDrain(E, Grads(p.nodes), p.queue, p.visited)
    decreases Unsettled(|G|, p.visited), |p.queue|
  {
    if p.queue != [] {
      var c := p.queue[0];
      assert p.nodes[c].grad == Grads(p.nodes)[c];
      var q := Advance(lib, G, E, p);
      if c !in p.visited {
        assert Unsettled(|G|, p.visited + {c}) < Unsettled(|G|, p.visited) by {
          assert c in Unsettled(|G|, p.visited);
        }
      }
      DrainGrads(lib, G, E, q);
    }
  }

  /** One unfolding of `GradDrain` at a node not yet visited. */
  lemma GradDrainFires(E: seq<seq<Edge>>, gs: seq<real>, queue: seq<nat>, visited: set<nat>,
                       gs': seq<real>, queue': seq<nat>, visited': set<nat>)
    requires BackEdges(E) && |gs| == |E| && forall k :: 0 <= k < |queue| ==> queue[k] < |E|
    requires queue != [] && queue[0] !in visited
    requires gs' == Accumulated(gs, E[queue[0]], gs[queue[0]])
    requires queue' == queue[1..] + Targets(E[queue[0]])
    requires visited' == visited + {queue[0]}
    ensures GradDrain(E, gs, queue, visited) == GradDrain(E, gs', queue', visited')
  {
  }

  /** Accumulating two edges into distinct operands. */
  lemma AccumulatedPair(gs: seq<real>, a: nat, la: real, b: nat, lb: real, g: real)
    requires a < |gs| && b < |gs| && a != b
    ensures Accumulated(gs, [Edge(a, la), Edge(b, lb)], g) == gs[a := gs[a] + g * la][b := gs[b] + g * lb]
  {
    var l := Accumulated(gs, [Edge(a, la), Edge(b, lb)], g);
    var r := gs[a := gs[a] + g * la][b := gs[b] + g * lb];
    forall j | 0 <= j < |gs| ensures l[j] == r[j] {
      WeightPair(a, la, b, lb, j);
    }
  }

  /** A leaf, or a node already visited, at the front of the queue only leaves the queue. */
  lemma GradDrainSkipsLeaf(E: seq<seq<Edge>>, gs: seq<real>, queue: seq<nat>, visited: set<nat>)
    requires BackEdges(E) && |gs| == |E| && forall k :: 0 <= k < |queue| ==> queue[k] < |E|
    requires queue != [] && (E[queue[0]] == [] || queue[0] in visited)
    ensures GradDrain(E, gs, queue, visited) == GradDrain(E, gs, queue[1..], visited + {queue[0]})
  {
    var c := queue[0];
    if c in visited {
      assert visited + {c} == visited;
    } else {
      assert Accumulated(gs, [], gs[c]) == gs;
      assert Targets(E[c]) == [];
      assert queue[1..] + [] == queue[1..];
    }
  }

  /** A queue of leaves and visited nodes leaves every gradient as it is. */
  lemma {:induction false} GradDrainLeaves(E: seq<seq<Edge>>, gs: seq<real>, queue: seq<nat>, visited: set<nat>)
    requires BackEdges(E) && |gs| == |E|
    requires forall k :: 0 <= k < |queue| ==> queue[k] < |E| && (E[queue[k]] == [] || queue[k] in visited)
    ensures GradDrain(E, gs, queue, visited) == gs
    decreases |queue|
  {
    if queue != [] {
      GradDrainSkipsLeaf(E, gs, queue, visited);
      GradDrainLeaves(E, gs, queue[1..], visited + {queue[0]});
    }
  }

  /** Accumulating one edge. */
  lemma AccumulatedOne(gs: seq<real>, a: nat, la: real, g: real)
    requires a < |gs|
    ensures Accumulated(gs, [Edge(a, la)], g) == gs[a := gs[a] + g * la]
  {
    var l := Accumulated(gs, [Edge(a, la)], g);
    var r := gs[a := gs[a] + g * la];
    forall j | 0 <= j < |gs| ensures l[j] == r[j] {
      WeightOne(a, la, j);
    }
  }

  /** Accumulating two edges into the same operand (`add(a, a)`, `mul(a, a)`). */
  lemma AccumulatedTwice(gs: seq<real>, a: nat, la: real, lb: real, g: real)
    requires a < |gs|
    ensures Accumulated(gs, [Edge(a, la), Edge(a, lb)], g) == gs[a := gs[a] + g * (la + lb)]
  {
    var l := Accumulated(gs, [Edge(a, la), Edge(a, lb)], g);
    var r := gs[a := gs[a] + g * (la + lb)];
    forall j | 0 <= j < |gs| ensures l[j] == r[j] {
      WeightPair(a, la, a, lb, j);
      assert l[j] == gs[j] + g * Weight([Edge(a, la), Edge(a, lb)], j);
      if j == a {
        assert Weight([Edge(a, la), Edge(a, lb)], j) == la + lb;
        assert r[j] == gs[a] + g * (la + lb);
      } else {
        assert Weight([Edge(a, la), Edge(a, lb)], j) == 0.0;
        assert r[j] == gs[j];
      }
    }
  }

  /** A whole `backward` call, followed on gradients alone. */
  lemma RunGrads(lib: MathLib, nodes: seq<Value>, root: nat)
    requires WellFormed(nodes) && root < |nodes|
    ensures Grads(Run(lib, nodes, root).nodes) == GradDrain(Table(lib, nodes), Grads(Seed(nodes, root)), [root], {})
  {
    var p0 := Pass(Seed(nodes, root), [root], {}, []);
    SameShapeWellFormed(nodes, p0.nodes);
    DrainGrads(lib, nodes, Table(lib, nodes), p0);
  }

}
