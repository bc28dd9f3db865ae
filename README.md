# micrograd, modelled in Dafny

micrograd is a scalar reverse-mode automatic-differentiation engine written in
Rust. Every `Value` node holds a forward value (`data`) and a gradient
(`grad`), and it records the operation that built it from its operand nodes.
A backward pass starts at a root node, sets the root's gradient to 1 and walks
the operand edges breadth-first with a FIFO queue. Each node it dequeues
pushes its gradient, times the local derivative of its operation, into its
operands.

The repository holds two engines, and both are modelled here.

- `micrograd/src/value.rs` is the full engine. Its operations are `Add`,
  `Div`, `Exp`, `Mul`, `Pow`, `Sub` and `Tanh`. Its `backward` keeps a
  visited set, skips a node it has already processed, and ADDS each
  contribution into the operand's gradient.
- `micrograd/src/lib.rs` is the earlier engine. It has only `Add` and `Mul`,
  and every node carries a label. Its `backprop` has no visited set, and it
  SETS each operand's gradient to the contribution.

Rust's `Rc<Value>` references become indices into an arena, a `seq` of nodes.
A node's operands are always earlier indices. Identity by `Rc::as_ptr` is
identity of index. `Cell` writes become updates of the arena, which is held
in a `Graph` class with one field per engine. The constructors are `Graph`
methods that append a node. The backward passes are `Graph` methods with a
`while` loop over a queue, each proved equal to a specification function of
the old arena.

Modules:

- `Wrappers`: `Option`.
- `ValueNode`, the value.rs data model:
  - the operations and nodes;
  - the arena invariant `WellFormed`;
  - the forward values (`Eval`, `Evaluated`);
  - the derivative rules (`Rules`, `Partials`, `Table`);
  - the accumulation of one node into its operands (`Propagate`);
  - the descendants of a node (`Desc`).
- `ValueBackward`: `backward` as a specification. One loop iteration is
  `Step`, the loop is `Drain` and a whole call is `Run`. It also holds the
  structural lemmas.
- `ValueTrace`: the same loop, followed on the gradient vector alone
  (`GradDrain`), used for the concrete test graphs.
- `ChainRule`, the chain-rule derivative of the root in every node:
  - `Derivative`, a sum over the consumers of each node;
  - a corrected pass, `Sweep`, which fires the nodes in decreasing index
    order, and its proof;
  - the shared-sub-expression graph, on which `backward` misses a
    contribution.
- `ValueGraph`: the `Graph` class of value.rs:
  - the constructors;
  - the body of one iteration (`LocalDerivatives`, `PropagateFrom`);
  - the loop (`DrainQueue`) and `Backward`;
  - the corrected `BackwardSweep`.
- `ValueTests`: the unit tests of value.rs, each as a lemma about `Run` and
  as a method that builds the graph with the constructors.
- `LabelledEngine`, lib.rs as a specification:
  - nodes with labels and the `Display` label choice;
  - the overwriting `Step`, `Drain` and `Run`;
  - the termination measure (`Potential`, the sum of 3^index over the queue);
  - the lemmas.
- `LabelledGraph`: the `Graph` class of lib.rs, with `New`, `Add`, `Mul` and
  `Backprop`.
- `LabelledTests`: the lib.rs unit test, and two graphs that show what the
  overwrite does to a shared node.

The math-library routines `exp`, `tanh`, `powf` and `ln` are fields of a
`MathLib` value passed as a parameter. Every lemma holds for any choice of
them. `f64` arithmetic is modelled as exact `real` arithmetic.

## Model

| member | source | states |
|---|---|---|
| ValueNode.Operands | micrograd/src/value.rs:5-13 | a binary operation has two operands and `Exp`/`Tanh` one, in the order backward enqueues them |
| ValueNode.Rules | micrograd/src/value.rs:123-202 | one local derivative per operand, in the order the operands are updated and enqueued |
| ValueNode.Partials | micrograd/src/value.rs:121-202 | the local derivatives of a node: none exactly for a leaf, one per child, each for an operand with a smaller index |
| ValueNode.PartialsIgnoreGrads | micrograd/src/value.rs:123-202 | the local derivatives read only data and operations, never gradients |
| ValueNode.Table | micrograd/src/value.rs:121-202 | the derivative table of an arena has one row per node, and every edge points to an earlier node |
| ValueNode.TableIgnoresGrads | micrograd/src/value.rs:123-202 | two arenas that differ only in gradients have the same derivative table |
| ValueNode.AddInto | micrograd/src/value.rs:124-199 | one `grad.set(grad.get() + g * local)` write: the operand's grad grows by g times the local derivative, and every other node, and all data and operations, are unchanged |
| ValueNode.PropagateOne | micrograd/src/value.rs:141-156 | for `exp` and `tanh` the single write equals firing the node: the operand accumulates g times its local derivative |
| ValueNode.PropagateTwo | micrograd/src/value.rs:124-199 | for a binary rule the two writes made one after the other, the second reading the grad the first left, equal firing the node, so an operand used twice (`add(a, a)`) receives both terms |
| ValueNode.PropagateFrame | micrograd/src/value.rs:124-199 | firing a node leaves every node that is none of its operands exactly as it was |
| ValueNode.Propagate | micrograd/src/value.rs:123-202 | firing a node changes only gradients |
| ValueNode.EvalReadsOperands | micrograd/src/value.rs:44-110 | the data a constructor computes (`Eval`) depends only on the operation and its operands' data: two arenas agreeing on those operands' data give the same value, and a non-zero denominator stays non-zero |
| ValueNode.WellFormedPrefix | micrograd/src/value.rs:36-110 | every prefix of an arena is itself an arena (`WellFormed`): each node refers only to nodes created before it |
| ValueGraph.AppendKeepsValid | micrograd/src/value.rs:36-110 | appending a node whose operands already exist and whose data is its operation applied to theirs keeps the arena `WellFormed` and `Evaluated` |
| ValueNode.Desc | micrograd/src/value.rs:121-204 | the nodes reachable from i along operand edges include i, and all have index at most i |
| ValueNode.DescClosed | micrograd/src/value.rs:126-201 | the reachable set is closed under taking operands |
| ValueNode.ClosedCoversDesc | micrograd/src/value.rs:126-201 | any operand-closed set containing i contains every node reachable from i |
| ValueBackward.Step | micrograd/src/value.rs:117-206 | one iteration keeps the loop invariant and changes only gradients |
| ValueBackward.Drain | micrograd/src/value.rs:117-207 | the loop ends with an empty queue on every well-formed arena, changing only gradients |
| ValueBackward.Seed | micrograd/src/value.rs:115 | the root's grad becomes 1 and every other node, and all data and operations, are unchanged |
| ValueBackward.Run | micrograd/src/value.rs:112-208 | a whole backward call changes only gradients |
| ValueBackward.StepAccumulates | micrograd/src/value.rs:118-206 | an iteration at a visited node changes nothing; otherwise every grad becomes old grad + current.grad * local derivative |
| ValueBackward.StepFrame | micrograd/src/value.rs:118-206 | an iteration writes only the operands of an unvisited current node |
| ValueBackward.DrainAbove | micrograd/src/value.rs:117-207 | nodes at or above every queued index keep their gradients |
| ValueBackward.DrainFrame | micrograd/src/value.rs:117-207 | from a queue inside an operand-closed set, nodes outside the set keep their gradients |
| ValueBackward.StepFrontier | micrograd/src/value.rs:117-206 | an iteration keeps every operand of a visited node visited or queued, and keeps every queued node visited or queued |
| ValueBackward.DrainCovers | micrograd/src/value.rs:117-207 | everything queued ends visited, the visited set stays inside any operand-closed set that holds the queue, and it ends operand-closed |
| ValueBackward.RunSeedsRoot | micrograd/src/value.rs:115-116 | after backward the root's grad is exactly 1 |
| ValueBackward.RunOnlyReachable | micrograd/src/value.rs:112-208 | a node not reachable from the root keeps its grad |
| ValueBackward.RunFiresReachableOnce | micrograd/src/value.rs:117-120 | each node is propagated at most once, and the propagated nodes are exactly the nodes reachable from the root |
| ValueTrace.Advance | micrograd/src/value.rs:117-206 | one iteration on gradients alone: skip a visited node, or accumulate along its derivative table row and enqueue its operands |
| ValueTrace.DrainGrads | micrograd/src/value.rs:117-207 | the gradients left by the loop are those computed by the gradient-only trace `GradDrain` |
| ValueTrace.GradDrainLeaves | micrograd/src/value.rs:118-121 | a queue of leaves and visited nodes leaves every gradient unchanged |
| ValueTrace.RunGrads | micrograd/src/value.rs:112-208 | a whole backward call, followed on gradients alone |
| ChainRule.FireBelow | micrograd/src/value.rs:123-202 | firing node m with its final adjoint adds m's term of the chain-rule sum to each lower node |
| ChainRule.FireAbove | micrograd/src/value.rs:123-202 | firing node m never touches a node at or above m |
| ChainRule.SweepDown | micrograd/src/value.rs:121-202 | firing nodes k-1 down to 0 changes only gradients; what it computes is stated by `SweepInvariant` |
| ChainRule.SweepDownAbove | micrograd/src/value.rs:121-202 | firing nodes k-1 down to 0 leaves node k and every node above it as it was |
| ChainRule.Sweep | micrograd/src/value.rs:112-208 | the corrected pass (seed the root, then fire root, root-1, ..., 0) changes only gradients |
| ChainRule.SweepAbove | micrograd/src/value.rs:112-208 | the corrected pass leaves every node above the root as it was |
| ChainRule.SweepInvariant | micrograd/src/value.rs:112-208 | firing the nodes in decreasing index order leaves every node up to the root with its chain-rule adjoint |
| ChainRule.SweepIsChainRule | micrograd/src/value.rs:112-208 | from zero gradients below the root, the sweep leaves every node up to the root with d root / d node |
| ChainRule.SweepDerivatives | micrograd/src/value.rs:112-208 | the sweep's result is the chain-rule derivative whenever the gradients below the root start at zero |
| ChainRule.SweepStep | micrograd/src/value.rs:121-206 | one sweep iteration changes only gradients and keeps the remaining sweep's target |
| ChainRule.SharedTable | micrograd/src/value.rs:123-128 | the derivative table of k = a+b, p = k+c, L = k+p |
| ChainRule.SharedRunGrads | micrograd/src/value.rs:112-208 | backward on L leaves gradients a = 1, b = 1, k = 2, c = 1, p = 1, L = 1 |
| ChainRule.SharedDerivatives | micrograd/src/value.rs:112-208 | on that graph dL/da = dL/db = dL/dk = 2 |
| ChainRule.SharedLosesContribution | micrograd/src/value.rs:117-120 | backward leaves a.grad = 1 where dL/da = 2, and the corrected sweep leaves 2 |
| ValueGraph.Graph.New | micrograd/src/value.rs:36-42 | appends a leaf with the given data and grad 0, returning its index; earlier nodes unchanged |
| ValueGraph.Graph.Add | micrograd/src/value.rs:44-52 | appends a node with data a + b, grad 0 and `Add(a, b)` recorded |
| ValueGraph.Graph.Div | micrograd/src/value.rs:54-62 | appends a node with data num / den, grad 0 and `Div(num, den)` recorded |
| ValueGraph.Graph.Exp | micrograd/src/value.rs:64-71 | appends a node with data exp(x), grad 0 and `Exp(x)` recorded |
| ValueGraph.Graph.Mul | micrograd/src/value.rs:73-81 | appends a node with data a * b, grad 0 and `Mul(a, b)` recorded |
| ValueGraph.Graph.Pow | micrograd/src/value.rs:83-91 | appends a node with data powf(base, exponent), grad 0 and `Pow` recorded |
| ValueGraph.Graph.Sub | micrograd/src/value.rs:93-101 | appends a node with data a - b, grad 0 and `Sub(a, b)` recorded |
| ValueGraph.Graph.Tanh | micrograd/src/value.rs:103-110 | appends a node with data tanh(x), grad 0 and `Tanh(x)` recorded |
| ValueGraph.Graph.LocalDerivatives | micrograd/src/value.rs:123-202 | the local derivatives computed in the loop body are the derivative rules, at most two |
| ValueGraph.Graph.PropagateFrom | micrograd/src/value.rs:121-202 | one non-skipped iteration accumulates into the operands and returns them in enqueue order |
| ValueGraph.Graph.DrainQueue | micrograd/src/value.rs:117-207 | the loop leaves the arena that `Drain` specifies |
| ValueGraph.Graph.Backward | micrograd/src/value.rs:112-208 | the arena becomes `Run`'s, only gradients change, the root's grad is 1, and unreachable nodes keep their grads |
| ValueGraph.Graph.SweepNodes | micrograd/src/value.rs:121-202 | fires nodes k-1 down to 0, each once, as `SweepDown` specifies |
| ValueGraph.Graph.BackwardSweep | micrograd/src/value.rs:112-208 | the corrected pass leaves d root / d node in every node up to the root |
| ValueTests.SimpleBackwardGrads | micrograd/src/value.rs:224-246 | simple_backward: grads a = 6, b = -4, c = -2, e = -2, d = -2, f = 4, L = 1 |
| ValueTests.SimpleBackward | micrograd/src/value.rs:224-246 | the test built with the constructors: data e = -6, d = 4, L = -8, and the grads above |
| ValueTests.SimpleTanhGrads | micrograd/src/value.rs:249-271 | simple_tanh: with s = 1 - tanh(n)^2, grads n = x1w1 = x2w2 = s, x1 = -3s, x2 = s, w1 = 2s, w2 = 0 |
| ValueTests.SimpleTanhAtHalf | micrograd/src/value.rs:263-270 | when tanh(n)^2 = 1/2 these are the test's 0.5, 0.5, 0.5, 0.5, -1.5, 1 and 0 |
| ValueTests.SimpleTanh | micrograd/src/value.rs:249-271 | the test built with the constructors gives those grads |
| ValueTests.ExpGrads | micrograd/src/value.rs:306-313 | exp_test: x.grad = exp(2), f.grad = 1 |
| ValueTests.ExpTest | micrograd/src/value.rs:306-313 | the test built with the constructors gives those grads |
| ValueTests.AddSelfGrads | micrograd/src/value.rs:316-321 | add(a, a) gives a.grad = 2 for any data |
| ValueTests.MulSelfGrads | micrograd/src/value.rs:324-329 | mul(a, a) gives a.grad = 2a for any data |
| ValueTests.DoublyReferencedAddition | micrograd/src/value.rs:316-321 | doubly_referenced_addition: a.grad = 2 |
| ValueTests.DoublyReferencedMultiplication | micrograd/src/value.rs:324-329 | doubly_referenced_multiplication: a.grad = 6 |
| ValueTests.FullyConnectedLayerGrads | micrograd/src/value.rs:332-346 | fully_connected_layer: grads a = -3, b = -8, c = -6, d = 1, e = 1 |
| ValueTests.FullyConnectedLayer | micrograd/src/value.rs:332-346 | the test built with the constructors gives those grads |
| ValueTests.PowGrads | micrograd/src/value.rs:349-362 | pow_test: a.grad = 3 * powf(2, 2), which is 12 when powf(2, 2) = 4, and b.grad = powf(2, 3) * ln(2) |
| ValueTests.PowTest | micrograd/src/value.rs:349-362 | the test built with the constructors gives those grads |
| ValueTests.DivGrads | micrograd/src/value.rs:365-377 | div_test: a.grad = 0.5, b.grad = -1 |
| ValueTests.DivTest | micrograd/src/value.rs:365-377 | the test built with the constructors: data 2 and those grads |
| LabelledEngine.DisplayLabel | micrograd/src/lib.rs:23 | the displayed label is the label when it is non-empty, and "<no label>" when it is empty |
| LabelledEngine.Display | micrograd/src/lib.rs:20-28 | the text opens with "(", then the displayed label and ": data: ", and closes with ")" |
| LabelledEngine.EvalReadsOperands | micrograd/src/lib.rs:41-61 | the data `add` and `mul` compute (`Eval`) depends only on the operation and its two operands' data |
| LabelledEngine.WellFormedPrefix | micrograd/src/lib.rs:31-61 | every prefix of an arena is itself an arena (`WellFormed`): each node refers only to nodes created before it |
| LabelledGraph.AppendKeepsValid | micrograd/src/lib.rs:31-61 | appending a node whose operands already exist and whose data is its operation applied to theirs keeps the arena `WellFormed` and `Evaluated` |
| LabelledEngine.SetGrad | micrograd/src/lib.rs:65-78 | one `grad.set(g)` write: node j's grad becomes g, and every other node, and all data, operations and labels, are unchanged |
| LabelledEngine.Written | micrograd/src/lib.rs:68-83 | firing a node changes only gradients |
| LabelledEngine.Operands | micrograd/src/lib.rs:73-80 | the nodes enqueued are earlier than the current node |
| LabelledEngine.Step | micrograd/src/lib.rs:67-84 | one iteration keeps the loop invariant and changes only gradients |
| LabelledEngine.StepDecreases | micrograd/src/lib.rs:67-84 | each iteration lowers the sum of 3^index over the queue, so the loop ends without a visited set |
| LabelledEngine.Drain | micrograd/src/lib.rs:67-84 | the loop ends with an empty queue on every well-formed arena, changing only gradients |
| LabelledEngine.Seed | micrograd/src/lib.rs:65 | the root's grad becomes 1 and every other node, and all data, operations and labels, are unchanged |
| LabelledEngine.Run | micrograd/src/lib.rs:63-85 | a whole backprop call never changes data, operations or labels |
| LabelledEngine.StepOverwrites | micrograd/src/lib.rs:68-83 | an addition sets both operands' grads to current.grad; a multiplication sets lhs to g * rhs.data and rhs to g * lhs.data, the second write winning when they are one node; leaves and other nodes keep their grads |
| LabelledEngine.StepForgetsOperand | micrograd/src/lib.rs:70-81 | an operand's grad after an iteration does not depend on what it held before |
| LabelledEngine.DrainAbove | micrograd/src/lib.rs:67-84 | a node at or above every queued index is never written again |
| LabelledEngine.RunSeedsRoot | micrograd/src/lib.rs:65-66 | after backprop the root's grad is exactly 1, and data, operations and labels are unchanged |
| LabelledGraph.Graph.New | micrograd/src/lib.rs:31-39 | appends a leaf with the given data and label and grad 0 |
| LabelledGraph.Graph.Add | micrograd/src/lib.rs:41-50 | appends a node with data lhs + rhs, grad 0, `Add` and the label recorded |
| LabelledGraph.Graph.Mul | micrograd/src/lib.rs:52-61 | appends a node with data lhs * rhs, grad 0, `Mul` and the label recorded |
| LabelledGraph.Graph.Fire | micrograd/src/lib.rs:68-83 | one iteration's writes and enqueued operands, as `Written` and `Operands` specify |
| LabelledGraph.Graph.DrainQueue | micrograd/src/lib.rs:67-84 | the loop leaves the arena that `Drain` specifies |
| LabelledGraph.Graph.Backprop | micrograd/src/lib.rs:63-85 | the arena becomes `Run`'s, only gradients change, and the root's grad is 1 |
| LabelledTests.TestBackprop | micrograd/src/lib.rs:92-117 | backprop on L gives a = 6, b = -4, c = -2, e = -2, d = -2, f = 4, L = 1, propagating L, d and e |
| LabelledTests.TestBackpropMethod | micrograd/src/lib.rs:92-117 | the test built with the constructors: data e = -6, d = 4, L = -8, and those grads |
| LabelledTests.SquareFiresTwice | micrograd/src/lib.rs:66-84 | on L = k*k node k is propagated twice, and k.grad ends at 3 |
| LabelledTests.DoubleKeepsOne | micrograd/src/lib.rs:70-75 | on s = a + a, a.grad ends at 1 |

## Left out

- IEEE `f64` semantics: rounding, NaN and infinities are left out. `data` and `grad` are exact reals.
- ValueGraph.Graph.Div: requires a non-zero denominator. The code divides by any `f64`, and a zero gives an infinity or NaN, which has no `real` counterpart.
- `exp`, `tanh`, `powf` and `ln` are not interpreted. They are the `MathLib` parameter, so numeric facts about them are taken as hypotheses (for example "tanh(n)^2 = 1/2" in `ValueTests.SimpleTanhAtHalf`).
- The tolerance comparisons of the tests (`float_cmp`, value.rs:215-221) are replaced by exact symbolic results.
- `complicated_tanh` (value.rs:274-303) is left out. Its expected values hold only up to tolerance, through `exp`, which the model does not interpret.
- `powi(2)` is modelled as the product `x * x`.
- `Display` for value.rs (value.rs:24-33) is left out: it formats floats and contains no logic.
- LabelledEngine.Display: the `f64`-to-text formatting is the parameter `show`. Only the label choice and the surrounding text are modelled.
- `Rc` reference counting and `Cell` interior mutability become arena indices and in-place updates of the `nodes` field.
- `micrograd/src/neuron.rs` is not part of this model. It fills weights from a random number generator and has no logic of its own.
- `jupyter/02-makemore/makemore.py` is not part of this model. It is an exploratory script doing file and plotting I/O.
- value.rs:118-120 skips a node already visited, so each node fires once, at its first dequeue; the model follows the code.

## Findings

| source | as written | input that shows it | evidently intended | confidence | as-written member | corrected member |
|---|---|---|---|---|---|---|
| micrograd/src/value.rs:117-120 | a node is propagated when it is first dequeued, and later dequeues are skipped, so contributions that reach it after that are never passed on | a, b, c leaves, k = a + b, p = k + c, L = k + p, backward(L): k fires with grad 1 before p raises it to 2, so a.grad = 1 | a.grad = dL/da = 2: every node passes on its full gradient, as the chain rule requires | not executed | ChainRule.SharedLosesContribution | ChainRule.SweepIsChainRule, run by ValueGraph.Graph.BackwardSweep |
