/**
 * The earlier engine of micrograd/src/lib.rs: only addition and
 * multiplication, a label on every node, and a `backprop` whose FIFO loop has
 * no visited set and SETS each operand's grad to its contribution instead of
 * adding the contribution to it.
 *
 * Nodes live in an arena, as in the full engine's model: a node's operands
 * are earlier indices, and a node's index is its identity.
 */
module LabelledEngine {
  import opened Wrappers

  /** The operation that produced a node and its two operands (lib.rs:4-8). */
  datatype Op = Add(lhs: nat, rhs: nat) | Mul(lhs: nat, rhs: nat)

  /** A node (lib.rs:12-18); `label` is a reserved word in Dafny, so the label is `name`. */
  datatype Value = Value(data: real, grad: real, op: Option<Op>, name: string)

  /** The label `Display` prints (lib.rs:23): the label, or a placeholder for an empty one. */
  function DisplayLabel(v: Value): (s: string)
    ensures s != []
    ensures s == v.name <==> v.name != []
    ensures s != v.name ==> s == "<no label>"
  {
    if v.name == [] then "<no label>" else v.name
  }

  /**
   * `Display` (lib.rs:20-28), with the formatting of an f64 left to `show`:
   * "(label: data: x, gradient: g)".
   */
  function Display(show: real -> string, v: Value): (s: string)
    ensures var l := DisplayLabel(v);
      |s| > |l| + 8 && s[..|l| + 9] == "(" + l + ": data: " && s[|s| - 1] == ')'
  {
    var l := DisplayLabel(v);
    var s := "(" + l + ": data: " + show(v.data) + ", gradient: " + show(v.grad) + ")";
    assert s == ("(" + l + ": data: ") + (show(v.data) + ", gradient: " + show(v.grad) + ")");
    s
  }

  predicate LinksBack(nodes: seq<Value>, i: nat)
    requires i < |nodes|
  {
    match nodes[i].op
    case None => true
    case Some(op) => op.lhs < i && op.rhs < i
  }

  /** Every operand is an earlier node. */
  predicate WellFormed(nodes: seq<Value>) {
    forall i :: 0 <= i < |nodes| ==> LinksBack(nodes, i)
  }

  /** The data of a node built by `op` (lib.rs:41-61). */
  function Eval(nodes: seq<Value>, op: Op): real
    requires op.lhs < |nodes| && op.rhs < |nodes|
  {
    match op
    case Add(l, r) => nodes[l].data + nodes[r].data
    case Mul(l, r) => nodes[l].data * nodes[r].data
  }

  /** A node's data is fixed by its operation and its two operands' data alone. */
  lemma EvalReadsOperands(s: seq<Value>, t: seq<Value>, op: Op)
    requires op.lhs < |s| && op.rhs < |s| && op.lhs < |t| && op.rhs < |t|
    requires s[op.lhs].data == t[op.lhs].data && s[op.rhs].data == t[op.rhs].data
    ensures Eval(s, op) == Eval(t, op)
  {
  }

  /** Every prefix of an arena is an arena: nodes are only appended, after their operands. */
  lemma WellFormedPrefix(nodes: seq<Value>, k: nat)
    requires WellFormed(nodes) && k <= |nodes|
    ensures WellFormed(nodes[..k])
  {
    forall i | 0 <= i < k ensures LinksBack(nodes[..k], i) {
      assert LinksBack(nodes, i);
      assert nodes[..k][i] == nodes[i];
    }
  }

  /** Every inner node holds the value of its operation. */
  predicate Evaluated(nodes: seq<Value>)
    requires WellFormed(nodes)
  {
    forall i :: 0 <= i < |nodes| && nodes[i].op.Some? ==>
      LinksBack(nodes, i) && nodes[i].data == Eval(nodes, nodes[i].op.value)
  }

  /** Same data, operations and labels (`name`); only grads may differ. */
  predicate SameShape(s: seq<Value>, t: seq<Value>) {
    |s| == |t| &&
    forall i :: 0 <= i < |s| ==> s[i].data == t[i].data && s[i].op == t[i].op && s[i].name == t[i].name
  }

  lemma SameShapeWellFormed(s: seq<Value>, t: seq<Value>)
    requires WellFormed(s) && SameShape(s, t)
    ensures WellFormed(t)
  {
    forall i | 0 <= i < |t| ensures LinksBack(t, i) {
      assert LinksBack(s, i);
    }
  }

  lemma SameShapeEvaluated(s: seq<Value>, t: seq<Value>)
    requires WellFormed(s) && Evaluated(s) && SameShape(s, t)
    ensures WellFormed(t) && Evaluated(t)
  {
    SameShapeWellFormed(s, t);
    forall i | 0 <= i < |t| && t[i].op.Some? ensures t[i].data == Eval(t, t[i].op.value) {
      assert LinksBack(s, i);
      var op := s[i].op.value;
      assert s[op.lhs].data == t[op.lhs].data && s[op.rhs].data == t[op.rhs].data;
    }
  }

  // ---------------------------------------------------------------------
  // backprop (lib.rs:63-85)

  /**
   * The state of one `backprop` call: the arena, the queue and, for the
   * proofs only, the nodes whose operation was propagated, in order.
   */
  datatype Pass = Pass(nodes: seq<Value>, queue: seq<nat>, fired: seq<nat>)

  ghost predicate Inv(p: Pass) {
    WellFormed(p.nodes) && forall k :: 0 <= k < |p.queue| ==> p.queue[k] < |p.nodes|
  }

  /** `grad.set(g)` on node j. */
  function SetGrad(nodes: seq<Value>, j: nat, g: real): (r: seq<Value>)
    requires j < |nodes|
    ensures SameShape(nodes, r) && r[j].grad == g
    ensures forall i :: 0 <= i < |r| && i != j ==> r[i] == nodes[i]
  {
    nodes[j := nodes[j].(grad := g)]
  }

  /**
   * The arena after node c fires: a leaf changes nothing; an addition sets
   * both operands' grads to c's; a multiplication sets lhs's grad to c's grad
   * times rhs's data, then rhs's grad to c's grad times lhs's data
   * (lib.rs:68-83).
   */
  function Written(nodes: seq<Value>, c: nat): (r: seq<Value>)
    requires WellFormed(nodes) && c < |nodes|
    ensures SameShape(nodes, r)
  {
    assert LinksBack(nodes, c);
    var g := nodes[c].grad;
    match nodes[c].op
    case None => nodes
    case Some(op) =>
      match op
      case Add(l, r) => SetGrad(SetGrad(nodes, l, g), r, g)
      case Mul(l, r) => SetGrad(SetGrad(nodes, l, g * nodes[r].data), r, g * nodes[l].data)
  }

  /** `Written` at a multiplication, as the two writes in order, of x = g * rhs.data and then y = g * lhs.data. */
  lemma WrittenMul(nodes: seq<Value>, c: nat, l: nat, r: nat, x: real, y: real)
    requires WellFormed(nodes) && c < |nodes| && nodes[c].op == Some(Mul(l, r))
    requires l < |nodes| && r < |nodes|
    requires x == nodes[c].grad * nodes[r].data && y == nodes[c].grad * nodes[l].data
    ensures Written(nodes, c) == SetGrad(SetGrad(nodes, l, x), r, y)
  {
    var w := Written(nodes, c);
    var s := SetGrad(SetGrad(nodes, l, x), r, y);
    forall j | 0 <= j < |w| ensures w[j] == s[j] {
      if j == r {
      } else if j == l {
      }
    }
  }

  /** The nodes enqueued when node c fires: its operands, lhs first, whether or not they were seen before. */
  function Operands(nodes: seq<Value>, c: nat): (ops: seq<nat>)
    requires WellFormed(nodes) && c < |nodes|
    ensures forall k :: 0 <= k < |ops| ==> ops[k] < c
  {
    assert LinksBack(nodes, c);
    match nodes[c].op
    case None => []
    case Some(op) => [op.lhs, op.rhs]
  }

  /** One iteration: dequeue the front node, fire it, enqueue its operands. */
  function Step(p: Pass): (q: Pass)
    requires Inv(p) && p.queue != []
    ensures Inv(q) && SameShape(p.nodes, q.nodes)
  {
    var c := p.queue[0];
    var n := Written(p.nodes, c);
    SameShapeWellFormed(p.nodes, n);
    Pass(n, p.queue[1..] + Operands(p.nodes, c), if p.nodes[c].op.Some? then p.fired + [c] else p.fired)
  }

  function Pow3(n: nat): (r: nat)
    ensures r >= 1
  {
    if n == 0 then 1 else 3 * Pow3(n - 1)
  }

  lemma {:induction false} Pow3Monotone(a: nat, b: nat)
    requires a <= b
    ensures Pow3(a) <= Pow3(b)
    decreases b
  {
    if a < b {
      Pow3Monotone(a, b - 1);
    }
  }

  /**
   * The termination measure of the loop: the sum of 3^i over the queue. A
   * dequeue of node c adds at most two nodes below c, and 3^l + 3^r < 3^c.
   */
  function Potential(queue: seq<nat>): nat {
    if queue == [] then 0 else Pow3(queue[0]) + Potential(queue[1..])
  }

  lemma {:induction false} PotentialAppend(a: seq<nat>, b: seq<nat>)
    ensures Potential(a + b) == Potential(a) + Potential(b)
    decreases |a|
  {
    if a != [] {
      assert (a + b)[1..] == a[1..] + b;
      PotentialAppend(a[1..], b);
    } else {
      assert a + b == b;
    }
  }

  /** Each iteration lowers the measure, so the loop ends on every arena. */
  lemma StepDecreases(p: Pass)
    requires Inv(p) && p.queue != []
    ensures Potential(Step(p).queue) < Potential(p.queue)
  {
    var c := p.queue[0];
    assert LinksBack(p.nodes, c);
    PotentialAppend(p.queue[1..], Operands(p.nodes, c));
    if p.nodes[c].op.Some? {
      var l, r := p.nodes[c].op.value.lhs, p.nodes[c].op.value.rhs;
      assert Potential([l, r]) == Pow3(l) + Pow3(r) by {
        assert [l, r][1..] == [r];
        assert [r][1..] == [];
        assert Potential([r]) == Pow3(r) + Potential([]);
      }
      Pow3Monotone(l, c - 1);
      Pow3Monotone(r, c - 1);
    } else {
      assert Potential([]) == 0;
    }
  }

  /** The loop, run until the queue is empty. */
  function Drain(p: Pass): (q: Pass)
    requires Inv(p)
    ensures Inv(q) && q.queue == [] && SameShape(p.nodes, q.nodes)
    decreases Potential(p.queue)
  {
    if p.queue == [] then p
    else
      StepDecreases(p);
      Drain(Step(p))
  }

  /** The arena with the root's grad set to 1 (lib.rs:65). */
  function Seed(nodes: seq<Value>, root: nat): (r: seq<Value>)
    requires root < |nodes|
    ensures SameShape(nodes, r) && r[root].grad == 1.0
    ensures forall j :: 0 <= j < |r| && j != root ==> r[j] == nodes[j]
  {
    SetGrad(nodes, root, 1.0)
  }

  /** A whole `Value::backprop(root)` call. */
  function Run(nodes: seq<Value>, root: nat): (q: Pass)
    requires WellFormed(nodes) && root < |nodes|
    ensures SameShape(nodes, q.nodes)
  {
    SameShapeWellFormed(nodes, Seed(nodes, root));
    Drain(Pass(Seed(nodes, root), [root], []))
  }

  /**
   * Each iteration overwrites: an operand's new grad is its contribution
   * alone, the last write winning when both operands are one node
   * (lib.rs:70-81); every other node keeps its grad; a leaf changes nothing.
   */
  lemma StepOverwrites(p: Pass, j: nat)
    requires Inv(p) && p.queue != [] && j < |p.nodes|
    ensures var n, c := p.nodes, p.queue[0]; var g := n[c].grad;
      LinksBack(n, c) &&
      Step(p).nodes[j].grad ==
        match n[c].op
        case None => n[j].grad
        case Some(Add(l, r)) => if j == l || j == r then g else n[j].grad
        case Some(Mul(l, r)) => if j == r then g * n[l].data else if j == l then g * n[r].data else n[j].grad
  {
    assert LinksBack(p.nodes, p.queue[0]);
  }

  /**
   * What an operand held before does not matter: two states that differ only
   * in the grad of an operand of the front node leave that operand with the
   * same grad.
   */
  lemma StepForgetsOperand(p: Pass, j: nat, v: real)
    requires Inv(p) && p.queue != [] && j < |p.nodes|
    requires p.nodes[p.queue[0]].op.Some?
    requires j == p.nodes[p.queue[0]].op.value.lhs || j == p.nodes[p.queue[0]].op.value.rhs
    ensures var p' := p.(nodes := SetGrad(p.nodes, j, v));
      Inv(p') && Step(p').nodes[j].grad == Step(p).nodes[j].grad
  {
    var c := p.queue[0];
    assert LinksBack(p.nodes, c);
    var p' := p.(nodes := SetGrad(p.nodes, j, v));
    SameShapeWellFormed(p.nodes, p'.nodes);
    assert p'.nodes[c] == p.nodes[c];
    StepOverwrites(p, j);
    StepOverwrites(p', j);
  }

  /** A node at or above every queued index is never written again. */
  lemma {:induction false} DrainAbove(p: Pass, bound: nat, j: nat)
    requires Inv(p) && bound <= j < |p.nodes|
    requires forall k :: 0 <= k < |p.queue| ==> p.queue[k] <= bound
    ensures Drain(p).nodes[j] == p.nodes[j]
    decreases Potential(p.queue)
  {
    if p.queue != [] {
      var c := p.queue[0];
      assert LinksBack(p.nodes, c);
      var q := Step(p);
      StepDecreases(p);
      assert q.nodes[j] == p.nodes[j];
      DrainAbove(q, bound, j);
    }
  }

  /** `backprop` leaves the root's grad at 1 and changes nothing else about any node but its grad. */
  lemma RunSeedsRoot(nodes: seq<Value>, root: nat)
    requires WellFormed(nodes) && root < |nodes|
    ensures SameShape(nodes, Run(nodes, root).nodes)
    ensures Run(nodes, root).nodes[root].grad == 1.0
  {
    var p := Pass(Seed(nodes, root), [root], []);
    SameShapeWellFormed(nodes, p.nodes);
    DrainAbove(p, root, root);
  }


  /** One unfolding of the loop. */
  lemma DrainStep(p: Pass)
    requires Inv(p) && p.queue != []
    ensures Inv(Step(p)) && Drain(p) == Drain(Step(p))
  {
  }
}
