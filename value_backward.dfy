/**
 * The backward pass of the full engine (micrograd/src/value.rs:112-208) as a
 * function: one `Step` per iteration of its `while let` loop over a FIFO
 * queue with a visited set, `Drain` until the queue is empty, and `Run` for a
 * whole call. Every lemma here is about that function; the imperative method
 * in ValueGraph is proved equal to it.
 */
module ValueBackward {
  import opened Wrappers
  import opened ValueNode

  /**
   * The state of one backward call: the arena, the queue, the visited set
   * (pointer identity is the index) and, for the proofs only, the order in
   * which nodes had their operation propagated.
   */
  datatype Pass = Pass(nodes: seq<Value>, queue: seq<nat>, visited: set<nat>, fired: seq<nat>)

  predicate Distinct(s: seq<nat>) {
    forall x, y :: 0 <= x < y < |s| ==> s[x] != s[y]
  }

  /** What holds of every state the loop passes through. */
  ghost predicate Inv(p: Pass) {
    WellFormed(p.nodes) &&
    (forall k :: 0 <= k < |p.queue| ==> p.queue[k] < |p.nodes|) &&
    (forall v :: v in p.visited ==> v < |p.nodes|) &&
    Distinct(p.fired) &&
    (forall v :: v in p.visited <==> v in p.fired)
  }

  /** The nodes whose operation has not been propagated yet. */
  ghost function Unvisited(p: Pass): set<nat> {
    set i: nat | i < |p.nodes| && i !in p.visited
  }

  /**
   * One iteration: dequeue the front node; skip it if visited; otherwise add
   * its grad times each local derivative into its operands, enqueue the
   * operands and mark it visited. The current node's grad is read once: it is
   * never one of its own operands.
   */
  function Step(lib: MathLib, p: Pass): (q: Pass)
    requires Inv(p) && p.queue != []
    ensures Inv(q) && SameShape(p.nodes, q.nodes)
  {
    var current := p.queue[0];
    if current in p.visited then
      p.(queue := p.queue[1..])
    else
      var next := Propagate(p.nodes, Partials(lib, p.nodes, current), p.nodes[current].grad);
      SameShapeWellFormed(p.nodes, next);
      Pass(next, p.queue[1..] + Children(p.nodes, current), p.visited + {current}, p.fired + [current])
  }

  /** The loop, run until the queue is empty; it terminates on every arena. */
  function Drain(lib: MathLib, p: Pass): (q: Pass)
    requires Inv(p)
    ensures Inv(q) && q.queue == [] && SameShape(p.nodes, q.nodes)
    decreases Unvisited(p), |p.queue|
  {
    if p.queue == [] then p
    else
      var q := Step(lib, p);
      assert Unvisited(q) <= Unvisited(p);
      assert p.queue[0] !in p.visited ==> p.queue[0] in Unvisited(p) - Unvisited(q);
      Drain(lib, q)
  }

  /** The arena with the root's grad seeded to 1 (value.rs:115). */
  function Seed(nodes: seq<Value>, root: nat): (r: seq<Value>)
    requires root < |nodes|
    ensures SameShape(nodes, r) && r[root].grad == 1.0
    ensures forall j :: 0 <= j < |r| && j != root ==> r[j] == nodes[j]
  {
    nodes[root := nodes[root].(grad := 1.0)]
  }

  /** A whole `Value::backward(root)` call. */
  function Run(lib: MathLib, nodes: seq<Value>, root: nat): (q: Pass)
    requires WellFormed(nodes) && root < |nodes|
    ensures SameShape(nodes, q.nodes)
  {
    SameShapeWellFormed(nodes, Seed(nodes, root));
    Drain(lib, Pass(Seed(nodes, root), [root], {}, []))
  }

  /**
   * Each iteration is an accumulation: a dequeued node already visited changes
   * no gradient (value.rs:118-120); otherwise each node's gradient grows by the
   * current grad times the local derivatives that belong to it (value.rs:123-202).
   */
  lemma StepAccumulates(lib: MathLib, p: Pass, j: nat, es: seq<Edge>, g: real)
    requires Inv(p) && p.queue != [] && j < |p.nodes|
    requires es == Partials(lib, p.nodes, p.queue[0]) && g == p.nodes[p.queue[0]].grad
    ensures Step(lib, p).nodes[j].grad == p.nodes[j].grad +
      (if p.queue[0] in p.visited then 0.0 else g * Weight(es, j))
  {
    if p.queue[0] in p.visited {
      assert Step(lib, p).nodes == p.nodes;
    } else {
      StepFires(lib, p, es, g);
      FireAt(lib, p.nodes, p.queue[0], es, g, j);
    }
  }

  /** The arena after firing a node not yet visited. */
  lemma StepFires(lib: MathLib, p: Pass, es: seq<Edge>, g: real)
    requires Inv(p) && p.queue != [] && p.queue[0] !in p.visited
    requires es == Partials(lib, p.nodes, p.queue[0]) && g == p.nodes[p.queue[0]].grad
    ensures Step(lib, p).nodes == Propagate(p.nodes, es, g)
  {
  }

  /** Firing node c adds g times its local derivatives into the operands. */
  lemma FireAt(lib: MathLib, nodes: seq<Value>, c: nat, es: seq<Edge>, g: real, j: nat)
    requires WellFormed(nodes) && c < |nodes| && j < |nodes| && es == Partials(lib, nodes, c)
    ensures Propagate(nodes, es, g)[j].grad == nodes[j].grad + g * Weight(es, j)
  {
    PropagateAccumulates(nodes, es, g, j);
  }

  /** A gradient that no operand edge of a dequeued node points at is left alone. */
  lemma StepFrame(lib: MathLib, p: Pass, j: nat)
    requires Inv(p) && p.queue != [] && j < |p.nodes|
    requires p.queue[0] !in p.visited ==> j !in Children(p.nodes, p.queue[0])
    ensures Step(lib, p).nodes[j].grad == p.nodes[j].grad
  {
    var current := p.queue[0];
    var es := Partials(lib, p.nodes, current);
    StepAccumulates(lib, p, j, es, p.nodes[current].grad);
    if current !in p.visited {
      WeightAbsent(es, j);
    }
  }

  /**
   * While every queued index is at most m, no node at index m or above has its
   * gradient changed: operands are always strictly earlier nodes.
   */
  lemma {:induction false} DrainAbove(lib: MathLib, p: Pass, m: nat)
    requires Inv(p) && forall k :: 0 <= k < |p.queue| ==> p.queue[k] <= m
    ensures forall j :: m <= j < |p.nodes| ==> Drain(lib, p).nodes[j].grad == p.nodes[j].grad
    decreases Unvisited(p), |p.queue|
  {
    if p.queue != [] {
      var q := Step(lib, p);
      var current := p.queue[0];
      assert LinksBack(p.nodes, current);
      forall j | m <= j < |p.nodes| ensures q.nodes[j].grad == p.nodes[j].grad {
        StepFrame(lib, p, j);
      }
      assert Unvisited(q) <= Unvisited(p);
      assert current !in p.visited ==> current in Unvisited(p) - Unvisited(q);
      DrainAbove(lib, q, m);
    }
  }

  /**
   * While every queued index lies in a set S closed under operand edges, no
   * node outside S has its gradient changed.
   */
  lemma {:induction false} DrainFrame(lib: MathLib, p: Pass, S: set<nat>)
    requires Inv(p) && Closed(p.nodes, S)
    requires forall k :: 0 <= k < |p.queue| ==> p.queue[k] in S
    ensures forall j :: 0 <= j < |p.nodes| && j !in S ==> Drain(lib, p).nodes[j].grad == p.nodes[j].grad
    decreases Unvisited(p), |p.queue|
  {
    if p.queue != [] {
      var q := Step(lib, p);
      var current := p.queue[0];
      assert ChildrenIn(p.nodes, current, S);
      forall j | 0 <= j < |p.nodes| && j !in S ensures q.nodes[j].grad == p.nodes[j].grad {
        StepFrame(lib, p, j);
      }
      assert Children(q.nodes, current) == Children(p.nodes, current);
      forall v | v in S && v < |q.nodes| ensures ChildrenIn(q.nodes, v, S) {
        assert ChildrenIn(p.nodes, v, S);
        assert Children(q.nodes, v) == Children(p.nodes, v);
      }
      assert Unvisited(q) <= Unvisited(p);
      assert current !in p.visited ==> current in Unvisited(p) - Unvisited(q);
      DrainFrame(lib, q, S);
    }
  }

  /** Everything visited or queued has its operands visited or queued. */
  ghost predicate Frontier(p: Pass) {
    forall v :: v in p.visited && v < |p.nodes| ==>
      forall k :: 0 <= k < |Children(p.nodes, v)| ==>
        Children(p.nodes, v)[k] in p.visited || Children(p.nodes, v)[k] in p.queue
  }

  /** A step changes no operation, so no operand list. */
  lemma StepKeepsChildren(lib: MathLib, p: Pass)
    requires Inv(p) && p.queue != []
    ensures forall v: nat :: v < |p.nodes| ==> Children(Step(lib, p).nodes, v) == Children(p.nodes, v)
  {
    var q := Step(lib, p);
    forall v: nat | v < |p.nodes| ensures Children(q.nodes, v) == Children(p.nodes, v) {
      assert q.nodes[v].op == p.nodes[v].op;
    }
  }

  /** A step keeps the frontier property and moves the front of the queue into the visited set. */
  lemma StepFrontier(lib: MathLib, p: Pass)
    requires Inv(p) && Frontier(p) && p.queue != []
    ensures Frontier(Step(lib, p))
    ensures forall k :: 0 <= k < |p.queue| ==> p.queue[k] in Step(lib, p).visited || p.queue[k] in Step(lib, p).queue
  {
    var q := Step(lib, p);
    var current := p.queue[0];
    StepKeepsChildren(lib, p);
    forall k | 0 <= k < |p.queue| ensures p.queue[k] in q.visited || p.queue[k] in q.queue {
      if k > 0 {
        assert p.queue[k] == q.queue[k - 1];
      }
    }
    forall v | v in q.visited && v < |q.nodes|
      ensures forall k :: 0 <= k < |Children(q.nodes, v)| ==>
        Children(q.nodes, v)[k] in q.visited || Children(q.nodes, v)[k] in q.queue
    {
      forall k | 0 <= k < |Children(q.nodes, v)|
        ensures Children(q.nodes, v)[k] in q.visited || Children(q.nodes, v)[k] in q.queue
      {
        var c := Children(p.nodes, v)[k];
        if v == current && current !in p.visited {
          assert q.queue[|p.queue| - 1 + k] == c;
        } else {
          assert c in p.visited || c in p.queue;
          if c in p.queue {
            var n :| 0 <= n < |p.queue| && p.queue[n] == c;
          }
        }
      }
    }
  }

  /**
   * Draining visits exactly what is reachable: every queued node ends up
   * visited, the final visited set is closed under operand edges, and it stays
   * inside any closed set D that held the queue and the visited set.
   */
  lemma {:induction false} DrainCovers(lib: MathLib, p: Pass, D: set<nat>)
    requires Inv(p) && Frontier(p) && Closed(p.nodes, D) && p.visited <= D
    requires forall k :: 0 <= k < |p.queue| ==> p.queue[k] in D
    ensures var q := Drain(lib, p);
      p.visited <= q.visited <= D &&
      (forall k :: 0 <= k < |p.queue| ==> p.queue[k] in q.visited) &&
      Closed(q.nodes, q.visited)
    decreases Unvisited(p), |p.queue|
  {
    if p.queue == [] {
      forall v | v in p.visited && v < |p.nodes| ensures ChildrenIn(p.nodes, v, p.visited) {
      }
    } else {
      var q := Step(lib, p);
      var current := p.queue[0];
      assert ChildrenIn(p.nodes, current, D);
      StepKeepsChildren(lib, p);
      forall v | v in D && v < |q.nodes| ensures ChildrenIn(q.nodes, v, D) {
        assert ChildrenIn(p.nodes, v, D);
      }
      StepFrontier(lib, p);
      assert Unvisited(q) <= Unvisited(p);
      assert current !in p.visited ==> current in Unvisited(p) - Unvisited(q);
      DrainCovers(lib, q, D);
    }
  }

  /** Afterwards the root's grad is exactly 1 (value.rs:115): no operand edge leads back to it. */
  lemma RunSeedsRoot(lib: MathLib, nodes: seq<Value>, root: nat)
    requires WellFormed(nodes) && root < |nodes|
    ensures Run(lib, nodes, root).nodes[root].grad == 1.0
  {
    SameShapeWellFormed(nodes, Seed(nodes, root));
    DrainAbove(lib, Pass(Seed(nodes, root), [root], {}, []), root);
  }

  /**
   * Only nodes reachable from the root through operand edges can have their
   * gradient changed; in particular every node created after the root keeps it.
   */
  lemma RunOnlyReachable(lib: MathLib, nodes: seq<Value>, root: nat, j: nat)
    requires WellFormed(nodes) && root < |nodes| && j < |nodes| && j !in Desc(nodes, root)
    ensures Run(lib, nodes, root).nodes[j].grad == nodes[j].grad
  {
    var seeded := Seed(nodes, root);
    SameShapeWellFormed(nodes, seeded);
    DescClosed(nodes, root);
    var S := Desc(nodes, root);
    forall v | v in S && v < |seeded| ensures ChildrenIn(seeded, v, S) {
      assert ChildrenIn(nodes, v, S);
      assert Children(seeded, v) == Children(nodes, v);
    }
    DrainFrame(lib, Pass(seeded, [root], {}, []), S);
  }

  /**
   * Each node reachable from the root has its operation propagated exactly
   * once, in `fired` order, and no other node does.
   */
  lemma RunFiresReachableOnce(lib: MathLib, nodes: seq<Value>, root: nat)
    requires WellFormed(nodes) && root < |nodes|
    ensures var q := Run(lib, nodes, root);
      Distinct(q.fired) && forall v :: v in q.fired <==> v in Desc(nodes, root)
  {
    var seeded := Seed(nodes, root);
    SameShapeWellFormed(nodes, seeded);
    DescClosed(nodes, root);
    var D := Desc(nodes, root);
    forall v | v in D && v < |seeded| ensures ChildrenIn(seeded, v, D) {
      assert ChildrenIn(nodes, v, D);
      assert Children(seeded, v) == Children(nodes, v);
    }
    var p := Pass(seeded, [root], {}, []);
    DrainCovers(lib, p, D);
    var q := Drain(lib, p);
    forall v | v in q.visited && v < |nodes| ensures ChildrenIn(nodes, v, q.visited) {
      assert ChildrenIn(q.nodes, v, q.visited);
      assert Children(q.nodes, v) == Children(nodes, v);
    }
    ClosedCoversDesc(nodes, q.visited, root);
  }
}
