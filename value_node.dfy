/**
 * Nodes of the full engine (micrograd/src/value.rs): the closed set of
 * operations, an arena of nodes whose operands are always earlier nodes,
 * the data computed eagerly at construction time, and the table of local
 * derivatives that the backward pass multiplies into the operands' gradients.
 *
 * Rust's `Rc<Value>` references become arena indices: the node created by the
 * k-th constructor call is `nodes[k]`, and `Rc::as_ptr` identity is the index.
 */
module ValueNode {
  import opened Wrappers

  /**
   * The f64 routines of Rust's standard library that the engine calls.
   * The model does not interpret them: every lemma holds for any choice.
   */
  datatype MathLib = MathLib(
    exp: real -> real,
    tanh: real -> real,
    powf: (real, real) -> real,
    ln: real -> real)

  /** The operation that produced a node, with its operands as arena indices. */
  datatype Op =
    | Add(a: nat, b: nat)
    | Div(num: nat, den: nat)
    | Exp(x: nat)
    | Mul(a: nat, b: nat)
    | Pow(base: nat, exponent: nat)
    | Sub(a: nat, b: nat)
    | Tanh(x: nat)

  /** One node: its forward value, its gradient and, unless it is a leaf, its operation. */
  datatype Value = Value(data: real, grad: real, op: Option<Op>)

  /** The operands of an operation, in the order the backward pass enqueues them. */
  function Operands(op: Op): (cs: seq<nat>)
    ensures 1 <= |cs| <= 2
    ensures |cs| == 1 <==> op.Exp? || op.Tanh?
  {
    match op
    case Add(a, b) => [a, b]
    case Div(num, den) => [num, den]
    case Exp(x) => [x]
    case Mul(a, b) => [a, b]
    case Pow(base, exponent) => [base, exponent]
    case Sub(a, b) => [a, b]
    case Tanh(x) => [x]
  }

  /** Every operand of `op` is an index below n. */
  predicate Below(op: Op, n: nat) {
    match op
    case Add(a, b) => a < n && b < n
    case Div(num, den) => num < n && den < n
    case Exp(x) => x < n
    case Mul(a, b) => a < n && b < n
    case Pow(base, exponent) => base < n && exponent < n
    case Sub(a, b) => a < n && b < n
    case Tanh(x) => x < n
  }

  /** The operand edges leaving node i (none for a leaf). */
  function Children(nodes: seq<Value>, i: nat): seq<nat>
    requires i < |nodes|
  {
    match nodes[i].op
    case None => []
    case Some(op) => Operands(op)
  }

  /**
   * Node i refers only to nodes created before it, and a quotient node's
   * denominator is not zero (f64 division by zero is not modelled).
   */
  predicate LinksBack(nodes: seq<Value>, i: nat)
    requires i < |nodes|
  {
    match nodes[i].op
    case None => true
    case Some(op) =>
      Below(op, i) && (op.Div? ==> nodes[op.den].data != 0.0)
  }

  /** An arena that constructor calls can build: a DAG in creation order. */
  predicate WellFormed(nodes: seq<Value>) {
    forall i :: 0 <= i < |nodes| ==> LinksBack(nodes, i)
  }

  /** Two arenas that differ at most in their gradients. */
  predicate SameShape(s: seq<Value>, t: seq<Value>) {
    |s| == |t| && forall i :: 0 <= i < |s| ==> s[i].data == t[i].data && s[i].op == t[i].op
  }

  lemma SameShapeWellFormed(s: seq<Value>, t: seq<Value>)
    requires WellFormed(s) && SameShape(s, t)
    ensures WellFormed(t)
  {
    forall i | 0 <= i < |t| ensures LinksBack(t, i) {
      assert LinksBack(s, i);
    }
  }

  /** The data a constructor computes for `op` from its operands' data. */
  function Eval(lib: MathLib, nodes: seq<Value>, op: Op): real
    requires Below(op, |nodes|)
    requires op.Div? ==> nodes[op.den].data != 0.0
  {
    match op
    case Add(a, b) => nodes[a].data + nodes[b].data
    case Div(num, den) => nodes[num].data / nodes[den].data
    case Exp(x) => lib.exp(nodes[x].data)
    case Mul(a, b) => nodes[a].data * nodes[b].data
    case Pow(base, exponent) => lib.powf(nodes[base].data, nodes[exponent].data)
    case Sub(a, b) => nodes[a].data - nodes[b].data
    case Tanh(x) => lib.tanh(nodes[x].data)
  }

  /**
   * A node's data is fixed by its operation and its operands' data alone:
   * gradients, and nodes that are not operands, play no part.
   */
  lemma EvalReadsOperands(lib: MathLib, s: seq<Value>, t: seq<Value>, op: Op)
    requires Below(op, |s|) && (op.Div? ==> s[op.den].data != 0.0)
    requires Below(op, |t|)
    requires forall k :: 0 <= k < |Operands(op)| ==>
      (Operands(op)[k] < |s| && Operands(op)[k] < |t| && s[Operands(op)[k]].data == t[Operands(op)[k]].data)
    ensures op.Div? ==> t[op.den].data != 0.0
    ensures Eval(lib, s, op) == Eval(lib, t, op)
  {
    var cs := Operands(op);
    assert s[cs[0]].data == t[cs[0]].data;
    if |cs| == 2 {
      assert s[cs[1]].data == t[cs[1]].data;
    }
  }

  /**
   * Every prefix of an arena is an arena: nodes are only ever appended, and
   * each one refers to nodes that existed before it.
   */
  lemma WellFormedPrefix(nodes: seq<Value>, k: nat)
    requires WellFormed(nodes) && k <= |nodes|
    ensures WellFormed(nodes[..k])
  {
    forall i | 0 <= i < k ensures LinksBack(nodes[..k], i) {
      assert LinksBack(nodes, i);
      assert nodes[..k][i] == nodes[i];
      match nodes[i].op {
        case None =>
        case Some(op) =>
          if op.Div? {
            assert nodes[..k][op.den] == nodes[op.den];
          }
      }
    }
  }

  /** Every operation node holds its operation applied to its operands' data. */
  predicate Evaluated(lib: MathLib, nodes: seq<Value>)
    requires WellFormed(nodes)
  {
    forall i :: 0 <= i < |nodes| && nodes[i].op.Some? ==>
      LinksBack(nodes, i) && nodes[i].data == Eval(lib, nodes, nodes[i].op.value)
  }

  lemma SameShapeEvaluated(lib: MathLib, s: seq<Value>, t: seq<Value>)
    requires WellFormed(s) && Evaluated(lib, s) && SameShape(s, t)
    ensures WellFormed(t) && Evaluated(lib, t)
  {
    SameShapeWellFormed(s, t);
    forall i | 0 <= i < |t| && t[i].op.Some? ensures t[i].data == Eval(lib, t, t[i].op.value) {
      assert LinksBack(s, i);
      assert s[i].data == Eval(lib, s, s[i].op.value);
      match s[i].op.value
      case Tanh(x) => assert s[x].data == t[x].data;
      case Exp(x) => assert s[x].data == t[x].data;
      case _ =>
        var cs := Operands(s[i].op.value);
        assert s[cs[0]].data == t[cs[0]].data && s[cs[1]].data == t[cs[1]].data;
    }
  }

  /** One local partial derivative of a node: the operand it belongs to and its value. */
  datatype Edge = Edge(operand: nat, local: real)

  /**
   * The derivative rules of the backward pass (value.rs:123-202) for an
   * operation whose own data is `out` and whose operands hold `x` and `y`
   * (`y` unused by the unary operations): one edge per operand, in enqueue
   * order; `powi(2)` is written as a product.
   */
  function Rules(lib: MathLib, op: Op, out: real, x: real, y: real): (es: seq<Edge>)
    requires op.Div? ==> y != 0.0
    ensures |es| == |Operands(op)|
    ensures forall k :: 0 <= k < |es| ==> es[k].operand == Operands(op)[k]
  {
    match op
    case Add(a, b) => [Edge(a, 1.0), Edge(b, 1.0)]
    case Mul(a, b) => [Edge(a, y), Edge(b, x)]
    case Tanh(v) => [Edge(v, 1.0 - out * out)]
    case Exp(v) => [Edge(v, out)]
    case Pow(base, exponent) => [Edge(base, y * lib.powf(x, y - 1.0)), Edge(exponent, out * lib.ln(x))]
    case Div(num, den) => [Edge(num, 1.0 / y), Edge(den, (-1.0 * x) / (y * y))]
    case Sub(a, b) => [Edge(a, 1.0), Edge(b, -1.0)]
  }

  /** The rules applied at node i of an arena; a leaf propagates nothing. */
  function Partials(lib: MathLib, nodes: seq<Value>, i: nat): (es: seq<Edge>)
    requires WellFormed(nodes) && i < |nodes|
    ensures |es| == |Children(nodes, i)|
    ensures es == [] <==> nodes[i].op.None?
    ensures forall k :: 0 <= k < |es| ==> es[k].operand == Children(nodes, i)[k] && es[k].operand < i
  {
    assert LinksBack(nodes, i);
    match nodes[i].op
    case None => []
    case Some(op) =>
      var cs := Operands(op);
      Rules(lib, op, nodes[i].data, nodes[cs[0]].data, if |cs| == 2 then nodes[cs[1]].data else 0.0)
  }

  /** The rules read only data and operations, never gradients. */
  lemma PartialsIgnoreGrads(lib: MathLib, s: seq<Value>, t: seq<Value>, i: nat)
    requires WellFormed(s) && SameShape(s, t) && i < |s|
    ensures WellFormed(t) && Partials(lib, s, i) == Partials(lib, t, i)
  {
    SameShapeWellFormed(s, t);
    assert LinksBack(s, i);
    assert s[i].op == t[i].op && s[i].data == t[i].data;
    if s[i].op.Some? {
      var cs := Operands(s[i].op.value);
      assert s[cs[0]].data == t[cs[0]].data;
      assert |cs| == 2 ==> s[cs[1]].data == t[cs[1]].data;
    }
  }

  /** The operands the edges lead to, in order: what the loop enqueues. */
  function Targets(es: seq<Edge>): (ts: seq<nat>)
    ensures |ts| == |es| && forall k :: 0 <= k < |es| ==> ts[k] == es[k].operand
  {
    seq(|es|, k requires 0 <= k < |es| => es[k].operand)
  }

  /** The rules have one edge per operand, in enqueue order. */
  lemma PartialsTargets(lib: MathLib, nodes: seq<Value>, i: nat)
    requires WellFormed(nodes) && i < |nodes|
    ensures Targets(Partials(lib, nodes, i)) == Children(nodes, i)
  {
  }

  /** Every edge of node i leads to an operand below i. */
  predicate BackEdges(E: seq<seq<Edge>>) {
    forall i, k :: 0 <= i < |E| && 0 <= k < |E[i]| ==> E[i][k].operand < i
  }

  /**
   * The edges of every node of an arena. Firing only changes gradients, which
   * the rules do not read, so one table serves a whole pass.
   */
  function Table(lib: MathLib, nodes: seq<Value>): (E: seq<seq<Edge>>)
    requires WellFormed(nodes)
    ensures |E| == |nodes| && BackEdges(E)
  {
    seq(|nodes|, i requires 0 <= i < |nodes| => Partials(lib, nodes, i))
  }

  /** Entry i of the table is what the rules give at node i. */
  lemma TableAt(lib: MathLib, nodes: seq<Value>, i: nat)
    requires WellFormed(nodes) && i < |nodes|
    ensures Table(lib, nodes)[i] == Partials(lib, nodes, i)
  {
  }

  /** Any arena shaped like `nodes` has the same table. */
  lemma TableIgnoresGrads(lib: MathLib, s: seq<Value>, t: seq<Value>)
    requires WellFormed(s) && SameShape(s, t)
    ensures WellFormed(t) && Table(lib, s) == Table(lib, t)
  {
    SameShapeWellFormed(s, t);
    forall i | 0 <= i < |s| ensures Table(lib, s)[i] == Table(lib, t)[i] {
      PartialsIgnoreGrads(lib, s, t, i);
    }
  }

  /** Sum of the local derivatives in `es` that belong to operand j. */
  function Weight(es: seq<Edge>, j: nat): real {
    if es == [] then 0.0
    else (if es[0].operand == j then es[0].local else 0.0) + Weight(es[1..], j)
  }

  lemma {:induction false} WeightAbsent(es: seq<Edge>, j: nat)
    requires forall k :: 0 <= k < |es| ==> es[k].operand != j
    ensures Weight(es, j) == 0.0
  {
    if es != [] {
      WeightAbsent(es[1..], j);
    }
  }

  /** The weight of a one-edge rule along node j. */
  lemma WeightOne(a: nat, la: real, j: nat)
    ensures Weight([Edge(a, la)], j) == (if j == a then la else 0.0)
  {
    assert [Edge(a, la)][1..] == [];
    assert Weight([], j) == 0.0;
  }

  /** The weight of a two-edge rule along node j; both terms count when a == b. */
  lemma WeightPair(a: nat, la: real, b: nat, lb: real, j: nat)
    ensures Weight([Edge(a, la), Edge(b, lb)], j) == (if j == a then la else 0.0) + (if j == b then lb else 0.0)
  {
    var es := [Edge(a, la), Edge(b, lb)];
    assert es[1..] == [Edge(b, lb)];
    assert Weight(es, j) == (if j == a then la else 0.0) + Weight([Edge(b, lb)], j);
    WeightOne(b, lb, j);
  }

  /**
   * One `grad.set(grad.get() + g * local)` call of value.rs: accumulate
   * `g * e.local` into the gradient of `e`'s operand.
   */
  function AddInto(nodes: seq<Value>, e: Edge, g: real): (r: seq<Value>)
    requires e.operand < |nodes|
    ensures SameShape(nodes, r)
    ensures r[e.operand].grad == nodes[e.operand].grad + g * e.local
    ensures forall j :: 0 <= j < |r| && j != e.operand ==> r[j] == nodes[j]
  {
    nodes[e.operand := nodes[e.operand].(grad := nodes[e.operand].grad + g * e.local)]
  }

  /** AddInto written as a plain sequence update with the new gradient `v`. */
  lemma AddIntoSets(nodes: seq<Value>, e: Edge, g: real, v: real)
    requires e.operand < |nodes| && v == nodes[e.operand].grad + g * e.local
    ensures AddInto(nodes, e, g) == nodes[e.operand := nodes[e.operand].(grad := v)]
  {
    var l := AddInto(nodes, e, g);
    var r := nodes[e.operand := nodes[e.operand].(grad := v)];
    forall i | 0 <= i < |l| ensures l[i] == r[i] {
    }
  }

  /**
   * What firing a node does to the arena: every gradient grows by `g` times
   * the sum of its local derivatives in `es`, so an operand used twice
   * (`add(a, a)`) gets both terms.
   */
  function Propagate(nodes: seq<Value>, es: seq<Edge>, g: real): (r: seq<Value>)
    ensures SameShape(nodes, r)
  {
    seq(|nodes|, i requires 0 <= i < |nodes| => nodes[i].(grad := nodes[i].grad + g * Weight(es, i)))
  }

  lemma PropagateAccumulates(nodes: seq<Value>, es: seq<Edge>, g: real, j: nat)
    requires j < |nodes|
    ensures Propagate(nodes, es, g)[j].grad == nodes[j].grad + g * Weight(es, j)
  {
  }

  /** Firing a node leaves every node that is none of its operands exactly as it was. */
  lemma PropagateFrame(nodes: seq<Value>, es: seq<Edge>, g: real, j: nat)
    requires j < |nodes| && forall k :: 0 <= k < |Targets(es)| ==> Targets(es)[k] != j
    ensures Propagate(nodes, es, g)[j] == nodes[j]
  {
    forall k | 0 <= k < |es| ensures es[k].operand != j {
      assert Targets(es)[k] == es[k].operand;
    }
    WeightAbsent(es, j);
  }

  /** A one-operand rule is one write. */
  lemma PropagateOne(nodes: seq<Value>, e: Edge, g: real)
    requires e.operand < |nodes|
    ensures Propagate(nodes, [e], g) == AddInto(nodes, e, g)
  {
    var l := Propagate(nodes, [e], g);
    var r := AddInto(nodes, e, g);
    forall i | 0 <= i < |nodes| ensures l[i] == r[i] {
      WeightOne(e.operand, e.local, i);
    }
  }

  /**
   * The two writes of a two-operand rule, one after the other as value.rs
   * makes them, add up to the simultaneous accumulation, also when both
   * operands are the same node.
   */
  lemma PropagateTwo(nodes: seq<Value>, e0: Edge, e1: Edge, g: real)
    requires e0.operand < |nodes| && e1.operand < |nodes|
    ensures Propagate(nodes, [e0, e1], g) == AddInto(AddInto(nodes, e0, g), e1, g)
  {
    var l := Propagate(nodes, [e0, e1], g);
    var r := AddInto(AddInto(nodes, e0, g), e1, g);
    forall i | 0 <= i < |nodes| ensures l[i] == r[i] {
      WeightPair(e0.operand, e0.local, e1.operand, e1.local, i);
      if i == e0.operand && i == e1.operand {
        assert g * (e0.local + e1.local) == g * e0.local + g * e1.local;
      }
    }
  }

  /** Indices reachable from node i along operand edges, i itself included. */
  function Desc(nodes: seq<Value>, i: nat): (d: set<nat>)
    requires WellFormed(nodes) && i < |nodes|
    ensures i in d
    ensures forall j :: j in d ==> j <= i
    decreases i
  {
    assert LinksBack(nodes, i);
    var cs := Children(nodes, i);
    {i} + (if 0 < |cs| then Desc(nodes, cs[0]) else {}) + (if 1 < |cs| then Desc(nodes, cs[1]) else {})
  }

  /** All operands of node v are in S. */
  predicate ChildrenIn(nodes: seq<Value>, v: nat, S: set<nat>)
    requires v < |nodes|
  {
    forall k :: 0 <= k < |Children(nodes, v)| ==> Children(nodes, v)[k] in S
  }

  /** S is closed under operand edges. */
  predicate Closed(nodes: seq<Value>, S: set<nat>) {
    forall v :: v in S && v < |nodes| ==> ChildrenIn(nodes, v, S)
  }

  lemma {:induction false} DescTransitive(nodes: seq<Value>, r: nat, v: nat)
    requires WellFormed(nodes) && r < |nodes| && v in Desc(nodes, r)
    ensures v < |nodes| && Desc(nodes, v) <= Desc(nodes, r)
    decreases r
  {
    assert LinksBack(nodes, r);
    var cs := Children(nodes, r);
    if v != r {
      if 0 < |cs| && v in Desc(nodes, cs[0]) {
        DescTransitive(nodes, cs[0], v);
      } else {
        DescTransitive(nodes, cs[1], v);
      }
    }
  }

  /** The descendants of a node form a set closed under operand edges. */
  lemma DescClosed(nodes: seq<Value>, r: nat)
    requires WellFormed(nodes) && r < |nodes|
    ensures Closed(nodes, Desc(nodes, r))
  {
    forall v | v in Desc(nodes, r) && v < |nodes| ensures ChildrenIn(nodes, v, Desc(nodes, r)) {
      DescTransitive(nodes, r, v);
      assert LinksBack(nodes, v);
    }
  }

  /** Every closed set that holds r holds all of r's descendants. */
  lemma {:induction false} ClosedCoversDesc(nodes: seq<Value>, S: set<nat>, r: nat)
    requires WellFormed(nodes) && r < |nodes| && Closed(nodes, S) && r in S
    ensures Desc(nodes, r) <= S
    decreases r
  {
    assert LinksBack(nodes, r);
    assert ChildrenIn(nodes, r, S);
    var cs := Children(nodes, r);
    if 0 < |cs| {
      ClosedCoversDesc(nodes, S, cs[0]);
    }
    if 1 < |cs| {
      ClosedCoversDesc(nodes, S, cs[1]);
    }
  }
}
