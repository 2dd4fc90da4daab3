# A verified model of a small Python deep-learning library

This project models, in Dafny, the core of a small deep-learning library
written in Python:

- **Tensors.** A tensor is a nested list of numbers. Its shape is found by
  walking the first element of each level.
  - It supports tuple indexing and tuple assignment, transpose, point-wise
    `+`, `-` and `*`, the matrix product `@`, `v_append` (adding a column),
    `apply` and equality.
  - Transpose, `+`, `-`, `*`, `@` and `apply` allocate a `zeros` buffer
    and fill it position by position. `v_append` builds plain lists, `==`
    compares entry by entry, and indexing reads or writes the nested list
    in place.
  - A tensor is also its own iterator, with a cursor `iter_count`.
- **The `fill`/`zeros`/`ones` factories** that build such nested lists.
- **The shape and parameter checks** of `validation.py`.
- **A computation graph of gates.** It holds an adjacency map from a gate to
  its successor set. It offers:
  - a depth-first topological sort driven by a queue;
  - parent and call-stack queries;
  - a forward pass that feeds values through the gates in topological
    order.
  The multiply, add and constant gates cache their inputs and have
  forward and backward rules.
- **A dense layer.** It validates its activation and weight-initialisation
  names, builds all-ones weights, appends a bias column to its input and
  runs a forward pass.

## Layout

Each module follows one source file:

| module | file | models |
|---|---|---|
| `Wrappers` | `wrappers.dfy` | The Python exceptions raised on the modelled paths, `Option`, `Result` and `Outcome`. |
| `Values` | `values.dfy` | A nested Python list as the datatype `Value`. Also the specification functions: `ShapeOf`, `Entry`, `Tabulate`, `FillValue`, the row-major numbering `Offset`/`Unflatten` of index tuples, and path reads and writes. |
| `Validation` | `validation.dfy` | `deep_learning/validation.py`. |
| `Utils` | `utils.dfy` | The list-building loop of `fill`. `deep_learning/utils.py` and the top-level `utils.py` contain the same `fill`, `zeros` and `ones`, so one model serves both. |
| `Tensors` | `tensor.dfy` | `class Tensor`, whose methods mutate `m` and `iter_count` as the source does. Each method is proved against a specification function on `Value`s, and the algebraic facts are lemmas about those functions. |
| `Gates` | `gates.dfy` | `class Gate` and `class ComputationalGraph`. The graph is a `map<Gate, set<Gate>>` plus the insertion order of its keys, which is the order a Python dict iterates in. |
| `Feedforward` | `feedforward.dfy` | `class Layer` and its construction. |

## How Python is represented

- Entries are mathematical integers.
- Every tensor an operation returns is stated to be *at rest* (`Tensor.AtRest`), as `zeros` and `Tensor(...)` leave it: well formed, with its shape read off its list and its cursor at -1. A result can therefore be iterated, zipped or multiplied by `@` again.
- An exception is an `Err`/`Fail` carrying the Python exception class.
- The iteration order of a Python `set` is chosen nondeterministically, so
  every result about the sort holds for every order.
- The recursion limit of `get_call_stack` is a `fuel` parameter; running
  out of it is `RecursionError`.
- The activation function (`relu`, from a module that is not part of this
  model) is an opaque `int -> int` parameter.

## Model

| member | source | states |
|---|---|---|
| `Validation.AssertNDims` | deep_learning/validation.py:1-5 | Passes exactly when the rank equals `n`, and otherwise fails with ValueError. |
| `Validation.Lower` | deep_learning/validation.py:12 | `str.lower` on ASCII keeps the length and lower-cases each character on its own. |
| `Validation.LowerIdempotent` | deep_learning/validation.py:12 | Lower-casing twice is lower-casing once. |
| `Validation.AssertSupportedParams` | deep_learning/validation.py:11-13 | Passes exactly when the lower-cased name is a key, and otherwise fails with ValueError. |
| `Validation.AssertSameShape` | deep_learning/validation.py:16-18 | Passes exactly when the shapes are equal, and otherwise fails with ValueError. |
| `Validation.IsScalar` | deep_learning/validation.py:22-23 | True exactly for the shape `(1,)`. |
| `Utils.Clamp` | deep_learning/utils.py:13-15 | Each size becomes the length of its `range`, so negative sizes become 0 and non-negative shapes are unchanged. |
| `Utils.FillList` | deep_learning/utils.py:11-16 | An empty shape fails with IndexError at `rev_shape[0]`. Otherwise the loop builds exactly `FillValue(x, shape)`. |
| `Utils.FillListShape` | utils.py:9-14 | For a non-empty shape, the filled list has the clamped shape, cut after its first zero size, and every entry is `x`. |
| `Utils.FillLeadingZero` | utils.py:10-13 | A leading size 0 collapses the whole fill to `[]`, of shape `(0,)`. |
| `Values.Repeat` | deep_learning/utils.py:13 | `[v for i in range(n)]` has length `n` and every element `v`. |
| `Values.Reverse` | deep_learning/tensor.py:18 | `[::-1]`: the same length, with element `i` taken from position `len - 1 - i`. |
| `Values.ReverseReverse` | deep_learning/tensor.py:24 | Reversing twice gives back the sequence. |
| `Values.Truncate` | deep_learning/tensor.py:160-163 | The shape walk stops after the first size 0. A shape with no zero before its last size is kept whole. |
| `Values.ShapeOfRect` | deep_learning/tensor.py:152-164 | The shape `get_tensor_shape` reads off a rectangular value of shape `s` is `s` cut after its first zero size. |
| `Values.RectTruncate` | deep_learning/tensor.py:152-164 | A rectangular value also has the cut shape. |
| `Values.IndexTuples` | deep_learning/tensor.py:142-150 | `index_iterator` yields one tuple per entry: `Count(s)` tuples. |
| `Values.IndexTuplesEnumerate` | deep_learning/tensor.py:145-148 | `itertools.product` of the ranges lists every in-bounds tuple exactly once, at its row-major position, and nothing else. |
| `Values.OffsetBound` | deep_learning/tensor.py:146-148 | An in-bounds tuple has a row-major position below the number of entries. |
| `Values.UnflattenOffset` | deep_learning/tensor.py:146-148 | The tuple at position `k` is in bounds and has position `k`. |
| `Values.OffsetUnflatten` | deep_learning/tensor.py:146-148 | An in-bounds tuple is the tuple at its own position. |
| `Values.OffsetInjective` | deep_learning/tensor.py:146-148 | Distinct in-bounds tuples have distinct positions. |
| `Values.TabulateSpec` | deep_learning/tensor.py:105-108 | Filling every position `t` of shape `s` with `f(t)` gives a rectangular value of shape `s` whose entry at `t` is `f(t)`. |
| `Values.Extensionality` | deep_learning/tensor.py:133-140 | Two values of one shape that agree at every index tuple are equal. |
| `Values.FillValueSpec` | deep_learning/utils.py:11-16 | The filled list is rectangular with the given shape, and every entry is `x`. |
| `Values.Index` | deep_learning/tensor.py:57 | `m[i]` follows Python: negative indices count from the end, out-of-range indices raise IndexError, and indexing a number raises TypeError. |
| `Values.Update` | deep_learning/tensor.py:67 | `m[i] = x` under the same rules, replacing exactly one element. |
| `Values.GetPathEntry` | deep_learning/tensor.py:50-55 | Reading an in-bounds tuple from a rectangular value gives that entry. |
| `Values.SetPathEntry` | deep_learning/tensor.py:59-64 | Writing an in-bounds tuple succeeds, keeps the shape, sets that entry, and leaves every other entry unchanged. So the deep-copied rows of `fill` never alias. |
| `Tensors.Tensor.constructor` | deep_learning/tensor.py:10-14 | Stores `m`, its shape, its rank and the cursor -1. A rectangular `m` gives a well-formed tensor. |
| `Tensors.Tensor.GetTensorShape` | deep_learning/tensor.py:152-164 | The `while` loop computes `ShapeOf(v)`. |
| `Tensors.Tensor.Len` | deep_learning/tensor.py:69-70 | A number has no `len` (TypeError). Otherwise the length is the first size of the shape. |
| `Tensors.Tensor.Get` | deep_learning/tensor.py:50-55 | Indexing with a tuple follows the path into `m`; on a well-formed tensor an in-bounds index tuple reads exactly that entry. |
| `Tensors.Tensor.SetItem` | deep_learning/tensor.py:59-64 | A tuple assignment either writes the path or fails with its error and leaves `m` unchanged. |
| `Tensors.Tensor.SetItemAt` | deep_learning/tensor.py:66-67 | The same for a single index. |
| `Tensors.Tensor.Next` | deep_learning/tensor.py:42-48 | At the last element it resets the cursor and raises StopIteration. Otherwise it advances the cursor and returns `m[cursor]`. A number raises TypeError. |
| `Tensors.Tensor.Items` | deep_learning/tensor.py:39-48 | Iterating to exhaustion yields the elements after the cursor and leaves the cursor reset. |
| `Tensors.Tensor.T` | deep_learning/tensor.py:16-26 | A rank-0 tensor fails with IndexError. Otherwise the result is a fresh tensor at rest, of shape `reverse(shape)` (cut after a zero size), whose entries are `Transposed(m, shape)`. |
| `Tensors.TransposedSpec` | deep_learning/tensor.py:16-26 | The transpose is rectangular of the reversed shape, and `T[reverse(t)] == self[t]` for every index tuple `t`. |
| `Tensors.TransposedAt` | deep_learning/tensor.py:24 | The same, for one tuple. |
| `Tensors.TransposedShape` | deep_learning/tensor.py:18 | The transposed value's derived shape is the reversed shape, cut after its first zero. |
| `Tensors.TransposeInvolution` | deep_learning/tensor.py:16-26 | Transposing twice gives back the entries. |
| `Tensors.TransposeTwiceShape` | deep_learning/tensor.py:16-26 | With no zero size, transposing twice gives back the shape. |
| `Tensors.TransposeTwiceLosesEmptyAxis` | deep_learning/tensor.py:16-26 | Any shape holding a zero size comes back from two transposes as `(0,)`, so no such shape other than `(0,)` is kept. |
| `Tensors.Tensor.Add` | deep_learning/tensor.py:103-109 | Different shapes fail with ValueError, and a rank-0 shape fails with IndexError. Otherwise the result is a fresh tensor at rest holding the point-wise sum. |
| `Tensors.Tensor.Sub` | deep_learning/tensor.py:111-117 | The same, with the point-wise difference. |
| `Tensors.CombineSpec` | deep_learning/tensor.py:103-131 | A point-wise combination has the operands' shape, and its entry at `t` is the operation applied to the operands' entries at `t`. |
| `Tensors.SubThenAdd` | deep_learning/tensor.py:103-117 | `(a - b) + b == a`. |
| `Tensors.Tensor.Mul` | deep_learning/tensor.py:119-131 | A shape-`(1,)` operand is first filled to the other's shape. Unequal shapes then fail with ValueError. Otherwise the result is a fresh tensor at rest holding the point-wise product. |
| `Tensors.MulShapeMismatch` | deep_learning/tensor.py:126 | Two different shapes, neither `(1,)`, fail with ValueError. |
| `Tensors.ScalarTimes` | deep_learning/tensor.py:122-123 | A `(1,)` left operand times `b` multiplies each entry of `b` by that one number. |
| `Tensors.TimesOnes` | deep_learning/tensor.py:119-131 | `a * ones(shape) == a`. |
| `Tensors.FillTimesIsApply` | deep_learning/tensor.py:122-131 | `fill(c, s) * a` is `a.apply(x => c * x)`. |
| `Tensors.Tensor.Apply` | deep_learning/tensor.py:189-195 | A rank-0 tensor fails with IndexError. Otherwise the result is a fresh tensor at rest, of the same shape, with `f` applied to each entry. |
| `Tensors.MappedSpec` | deep_learning/tensor.py:189-195 | The mapped value has the shape, and its entry at `t` is `f` of the entry at `t`. |
| `Tensors.Tensor.Eq` | deep_learning/tensor.py:133-140 | True exactly when the shapes agree and every indexed entry agrees, which is exactly when the nested lists are equal. |
| `Tensors.OnesAreNotZeros` | test/tensor_test.py:25 | `ones(s) != zeros(s)` for every non-empty shape with positive sizes. |
| `Tensors.Tensor.MatMul` | deep_learning/tensor.py:72-101 | Two vectors give the sum of products over `zip`, read from `other`'s cursor on. Otherwise: missing sizes fail with IndexError and mismatched sizes with ValueError. A matrix times a matrix is the matrix product. A matrix times a vector at rest is the product with the promoted column. A vector part-way through iteration promotes to too few rows (IndexError). Rank 3 or more fails with TypeError. A tensor result is fresh and at rest. Only a vector right operand's cursor moves, and not when `self.shape[1]` is missing. |
| `Tensors.Tensor.MatrixMatMul` | deep_learning/tensor.py:82-101 | The same cases once the two-vector case is excluded. |
| `Tensors.ZipSum` | deep_learning/tensor.py:80 | `sum(i * j for i, j in zip(xs, other))` is the dot product of `xs` with `other` from its cursor on, over the shorter length. It leaves `other`'s cursor where `zip` stopped. |
| `Tensors.Tensor.Column` | deep_learning/tensor.py:89 | `[[i] for i in other]` is the column of the elements after the cursor, of shape `(k, 1)` or `(0,)`. The column is fresh and at rest, and the vector's cursor ends reset. |
| `Tensors.ColumnOfShape` | deep_learning/tensor.py:89 | A column of `k > 0` numbers has shape `(k, 1)`, and an empty one has shape `(0,)`. |
| `Tensors.PromotedProduct` | deep_learning/tensor.py:88-101 | A matrix times a promoted vector. At rest and of rank 2, it gives the matrix product with the column (IndexError when the inner size is 0). Part-way through iteration it fails with IndexError. Rank 3 fails with TypeError. A result is fresh and at rest. |
| `Tensors.MatrixProduct` | deep_learning/tensor.py:91-101 | Fills `zeros((M, P))` with sums of products and flattens one column. Too few rows in the right operand fail with IndexError, and rank 3 or more fails with TypeError. Otherwise the result is a fresh tensor at rest holding `MatProduct`. |
| `Tensors.FlattenColumn` | deep_learning/tensor.py:95-99 | Flattening an `(M, 1)` result gives a fresh vector at rest holding its entries. |
| `Tensors.MatProductSpec` | deep_learning/tensor.py:91-101 | The product has shape `(M, P)` (a vector of length `M` when `P == 1`), and entry `(i, j)` is `Σ_k a[i][k] * b[k][j]`. |
| `Tensors.PromotedColumn` | deep_learning/tensor.py:89-94 | The product with the promoted column is the matrix-vector product. |
| `Tensors.Tensor.VAppend` | deep_learning/tensor.py:167-185 | Rank other than 1 for `x` fails with ValueError. A mismatched first size fails with ValueError, and a rank-0 `self` with IndexError. A vector gains `x[0]`. A matrix gains `x`'s remaining elements as a last column. |
| `Tensors.ZipRows` | deep_learning/tensor.py:179-185 | The `zip` loop extends row `i` by element `i` of `x`, from `x`'s cursor on, over the shorter length. It leaves the cursor where `zip` stopped. |
| `Tensors.AppendColumnSpec` | deep_learning/tensor.py:179-185 | Appending a full column to an `(n, p)` matrix gives `(n, p + 1)`. Column `p` is `x`, and the other entries are unchanged. |
| `Tensors.AppendColumnShape` | deep_learning/tensor.py:179-185 | The appended matrix is rectangular. |
| `Tensors.Fill` | deep_learning/utils.py:11-16 | An empty shape fails with IndexError. Otherwise the result is a fresh tensor at rest, holding `x` at every entry, with the clamped and cut shape. |
| `Tensors.Zeros` | deep_learning/utils.py:21-22 | `zeros(s)` is `fill(0, s)`. |
| `Tensors.Ones` | deep_learning/utils.py:25-26 | `ones(s)` is `fill(1, s)`. |
| `Tensors.Build` | deep_learning/tensor.py:105-108 | The `zeros`-then-assign loop over `index_iterator` produces exactly `Tabulate(s, f)`, of the cut shape. |
| `Tensors.Pointwise` | deep_learning/tensor.py:127-130 | The shared point-wise loop gives `Combine(a, b, s, op)`. |
| `Gates.Enumerate` | deep_learning/gates.py:32 | Iterating a set visits each of its elements exactly once. |
| `Gates.ListRepeat` | deep_learning/gates.py:92-93 | `list * n` repeats the list `max(n, 0)` times. |
| `Gates.PlusRaw` | deep_learning/gates.py:104 | `x + y` on plain values: numbers add and lists concatenate. A number and a list raise TypeError. |
| `Gates.TimesRaw` | deep_learning/gates.py:92-93 | `x * y` on plain values: numbers multiply and a list times a number repeats the list. Two lists raise TypeError. |
| `Gates.PlusItems` | deep_learning/gates.py:103-104 | `x + y` between tensors and plain values, as `PlusSpec` states, including the AttributeError and TypeError of mixed operands. A tensor sum is fresh and at rest. |
| `Gates.TimesItems` | deep_learning/gates.py:91-94 | `dz * cached`, as `TimesSpec` states, including a `None` cache. A tensor product is fresh and at rest. |
| `Gates.AtItems` | deep_learning/gates.py:89 | `x @ y` between items, as `AtSpec` states: two tensors as `AtTensors` states; a tensor and a plain value raise IndexError at rank 0, else AttributeError; a plain value on the left raises TypeError. A matrix result is fresh and at rest. |
| `Gates.MatMulItems` | deep_learning/gates.py:89 | `x @ y` between two tensors, as `AtTensors` states for the right operand's cursor before the call: the zip sum for two vectors, the matrix product for two matrices or a matrix and a vector at rest, ValueError and IndexError for shape errors, IndexError for a vector part-way through an iteration, and TypeError at rank 3 or more with positive sizes. A matrix result is fresh and at rest. |
| `Gates.Gate.constructor` | deep_learning/gates.py:72-74 | A plain gate with `n_inputs`, no parents and nothing cached. |
| `Gates.Gate.MultiplyGate` | deep_learning/gates.py:81-84 | Two inputs and nothing cached. |
| `Gates.Gate.AddGate` | deep_learning/gates.py:98-101 | Two inputs and nothing cached. |
| `Gates.Gate.ConstantGate` | deep_learning/gates.py:111-113 | One input and nothing cached. |
| `Gates.Gate.SetParent` | deep_learning/gates.py:76-77 | Appends the parent. |
| `Gates.Gate.Forward` | deep_learning/gates.py:86-118 | A plain gate has no `forward` (AttributeError), and the wrong number of arguments raises TypeError. A constant gate caches its input and returns it only if it is a tensor (else AssertionError). An add gate returns `x + y`. A multiply gate caches `x` and `y` and returns `x @ y`. `x @ y` is stated by `AtSpec`, with the part-way IndexError and the rank-3 TypeError. A new tensor result is fresh and at rest. Only the right operand of `@` is iterated. |
| `Gates.Gate.ForwardMultiply` | deep_learning/gates.py:86-89 | Caches both inputs, then `x @ y` as `AtSpec` states, including IndexError for a vector part-way through an iteration and TypeError at rank 3 or more with positive sizes; a matrix result is fresh and at rest. |
| `Gates.Gate.Backward` | deep_learning/gates.py:91-121 | A multiply gate gives `(dz * y, dz * x)` from its cache, each tensor product fresh and at rest. When `dz * y` fails, its error is the one raised; otherwise an error comes from `dz * x`. An add gate gives `(dz, dz)`, and a constant gate its cached input. A plain gate has no `backward`. |
| `Gates.ComputationalGraph.constructor` | deep_learning/gates.py:5-11 | Every input gate is a vertex with no successors, and nothing else is. The keys are in order of first occurrence in `input_gates`. |
| `Gates.Dedup` | deep_learning/gates.py:10-11 | The first occurrences, in order, of the inserted keys: no key twice, and exactly the inserted keys. |
| `Gates.DedupDistinct` | deep_learning/gates.py:10-11 | Inserting distinct gates keeps them in the given order. |
| `Gates.ComputationalGraph.AddVertex` | deep_learning/gates.py:13-14 | Sets the successors of `u` to the empty set, replacing any it had. It keeps the graph closed. |
| `Gates.ComputationalGraph.AddEdge` | deep_learning/gates.py:16-18 | Adds `v` to `u`'s successors (creating `u` if needed), then resets `v`'s successors. It keeps the graph closed. A new `u` becomes the next key, then a new `v` different from `u`. |
| `Gates.ComputationalGraph.LinkClosed` | deep_learning/gates.py:16-18 | Linking and then resetting keeps every successor a vertex. |
| `Gates.ComputationalGraph.Len` | deep_learning/gates.py:20-21 | The number of vertices is the length of their insertion-order listing. |
| `Gates.ComputationalGraph.ReachClosed` | deep_learning/gates.py:23-38 | A set holding the input gates and closed under successors holds every reachable vertex. |
| `Gates.ComputationalGraph.StackCycle` | deep_learning/gates.py:34-36 | The sort's stack is a path, so an edge back into it closes a cycle. |
| `Gates.ComputationalGraph.SortSkip` | deep_learning/gates.py:29-30 | Popping a seen vertex keeps the sort invariant. |
| `Gates.ComputationalGraph.SortFinish` | deep_learning/gates.py:34-35 | Moving a stack top that is not a predecessor of `v` to `order` keeps the invariant, and in an acyclic graph all its successors are already finished. |
| `Gates.ComputationalGraph.SortPush` | deep_learning/gates.py:32-36 | Pushing `v` and queueing its successors keeps the invariant. |
| `Gates.ComputationalGraph.SortComplete` | deep_learning/gates.py:28-38 | With the queue empty, every reachable vertex has been seen. |
| `Gates.ComputationalGraph.SortForward` | deep_learning/gates.py:38 | With the queue empty and no cycle, every edge points forward in `stack + order[::-1]`. |
| `Gates.ComputationalGraph.SortEnd` | deep_learning/gates.py:38 | The result lists each reachable vertex once and nothing else, with edges forward when acyclic. |
| `Gates.ComputationalGraph.Unwind` | deep_learning/gates.py:34-35 | The inner `while` loop ends with the stack empty or topped by a predecessor of `v`. It moves vertices between stack and `order` without losing any. |
| `Gates.ComputationalGraph.Visit` | deep_learning/gates.py:29-36 | Visiting an unseen vertex keeps the loop state and strictly grows `seen`. |
| `Gates.ComputationalGraph.SortStep` | deep_learning/gates.py:28-36 | One pass of the `while q` loop keeps the loop state, and either shrinks the unseen vertices or shortens the queue. |
| `Gates.ComputationalGraph.TopologicalSort` | deep_learning/gates.py:23-38 | The result lists each vertex reachable from an input gate exactly once and no other vertex. In an acyclic graph, every edge between listed vertices points forward. |
| `Gates.ComputationalGraph.ParentsIn` | deep_learning/gates.py:43-45 | Keeps exactly the listed vertices that have `g` as a successor, each once. |
| `Gates.ComputationalGraph.Parents` | deep_learning/gates.py:41-47 | `get_parents(g)` lists exactly the vertices with `g` among their successors, each once. |
| `Gates.ComputationalGraph.CallStacksSource` | deep_learning/gates.py:53-54 | Every vertex on the concatenated call stacks comes from the call stack of one parent. |
| `Gates.ComputationalGraph.CallStacksHold` | deep_learning/gates.py:53-54 | The concatenation contains each parent's call stack. |
| `Gates.ComputationalGraph.CallStackThrough` | deep_learning/gates.py:50-55 | A non-parent on a call stack is on some parent's call stack, one level down. |
| `Gates.ComputationalGraph.CallStackParent` | deep_learning/gates.py:53-55 | Each parent's call stack succeeds one level down and is contained in the gate's. |
| `Gates.ComputationalGraph.ParentStep` | deep_learning/gates.py:41-47 | The start of a one-edge path to `g` is a parent of `g`. |
| `Gates.ComputationalGraph.CallStackSound` | deep_learning/gates.py:49-57 | Everything on a successful call stack is an ancestor of the gate. |
| `Gates.ComputationalGraph.CallStackComplete` | deep_learning/gates.py:49-57 | Every ancestor is on a successful call stack. |
| `Gates.ComputationalGraph.CallStackAncestors` | deep_learning/gates.py:49-57 | A successful call stack holds exactly the gate's ancestors. |
| `Gates.ComputationalGraph.CallStacksFail` | deep_learning/gates.py:53-54 | One failing parent makes the whole call stack fail. |
| `Gates.ComputationalGraph.DeepPathExhausts` | deep_learning/gates.py:49-57 | A path longer than the recursion limit ending at the gate makes `get_call_stack` fail. |
| `Gates.ComputationalGraph.CycleExhausts` | deep_learning/gates.py:49-57 | On a cycle, `get_call_stack` fails whatever the recursion limit. |
| `Gates.ComputationalGraph.Schedule` | deep_learning/gates.py:61 | The visiting order of `forward` lists distinct vertices and holds every input gate exactly once. |
| `Gates.ComputationalGraph.InputsListed` | deep_learning/gates.py:61-64 | A listing of exactly the reachable vertices holds every input gate once. |
| `Gates.ComputationalGraph.FeedInput` | deep_learning/gates.py:63-64 | A plain gate fails before popping. An empty `input_values` raises IndexError. Otherwise the front value is popped and passed to the gate. A constant gate caches it and, when it is a tensor, appends it to `results`; an add or multiply gate raises TypeError. A failure leaves `results` unchanged. |
| `Gates.ComputationalGraph.FeedInner` | deep_learning/gates.py:66-68 | Fewer queued results than `n_inputs` raise IndexError. Otherwise the first `n_inputs` results are passed to the gate in queue order: a plain gate raises AttributeError, a wrong count TypeError, and a constant gate caches the first as `x`, and a multiply gate the first two as `x` and `y`. On success the rest of the queue stays at the front of the new queue. |
| `Gates.ComputationalGraph.Invoke` | deep_learning/gates.py:67-68 | After the pop, `forward` is called on the arguments, and its result `out` is tied to the gate: AttributeError for a plain gate, TypeError for a wrong count, a constant gate caches and returns its tensor input (else AssertionError), an add gate returns `x + y` as `PlusSpec` states, a multiply gate caches both inputs and returns `x @ y` as `AtSpec` states. An error from `forward` is the error raised. Otherwise `extend` raises TypeError for a number, and the new queue is exactly the remaining queue followed by the output's elements: a list's items, or a tensor's elements after its cursor (a new tensor from the start). No new object joins the queue. |
| `Gates.ComputationalGraph.InvokeConstant` | deep_learning/gates.py:67-68 | A constant gate's `forward` takes one argument (else TypeError), caches it, and returns it if it is a tensor (else AssertionError); `extend` then iterates that tensor from its own cursor, or raises TypeError for a number. |
| `Gates.ComputationalGraph.InvokeAdd` | deep_learning/gates.py:67-68 | An add gate's `forward` takes two arguments (else TypeError) and returns `x + y` as `PlusSpec` states; its error is the error raised, and otherwise its elements, from the start, follow the remaining queue. |
| `Gates.ComputationalGraph.InvokeMultiply` | deep_learning/gates.py:67-68 | A multiply gate's `forward` takes two arguments (else TypeError), caches both and returns `x @ y` as `AtSpec` states; its error is the error raised, and otherwise its elements, from the start, follow the remaining queue. |
| `Gates.ComputationalGraph.SpreadNew` | deep_learning/gates.py:68 | `results.extend(out)` for a new output at rest: its elements from the start join the queue, it is left at rest, and what `+` and `@` stated about it still holds. |
| `Gates.ComputationalGraph.Spread` | deep_learning/gates.py:68 | `results.extend(output)`, as `Extends` states: a tensor's elements from its cursor on, or a list's elements, join the queue in order, and the tensor's cursor is left at rest. A number is not iterable (TypeError). |
| `Gates.ComputationalGraph.Forward` | deep_learning/gates.py:59-68 | What is left of `input_values` is always a suffix of it. A completed pass consumes exactly one value per distinct input gate. |
| `Feedforward.Registered` | deep_learning/feedforward.py:31-32 | Validate-then-look-up: ValueError when the lower-cased name is not a key, KeyError when only the lower-cased name is, and success when the name is a key as given. |
| `Feedforward.RegisteredLowerKeys` | deep_learning/feedforward.py:27-32 | With lower-case keys, a name is accepted exactly when it is a key as given. |
| `Feedforward.ActFuncsLower` | deep_learning/feedforward.py:28-30 | The activation registry's keys are lower-case. |
| `Feedforward.CaseVariantRejected` | deep_learning/feedforward.py:31-32 | With lower-case keys, a name that is not lower-case but lower-cases to a key passes validation and then fails the lookup with KeyError. |
| `Feedforward.ValidateActFunc` | deep_learning/feedforward.py:27-32 | Succeeds exactly for `'relu'`, returning `relu`. Other case variants of `relu` raise KeyError, and anything else raises ValueError. |
| `Feedforward.InitWeights` | deep_learning/feedforward.py:34-42 | An unregistered strategy fails with the registry's error. Otherwise the result is a fresh all-ones tensor of shape `(input_size + 1 if has_bias else input_size, n_nodes)`, clamped and cut. |
| `Feedforward.WeightsShape` | deep_learning/feedforward.py:35-42 | With non-negative sizes and nodes, the weights have exactly that shape (`(0,)` without rows) and every entry is 1. |
| `Feedforward.TransposedOnesShape` | deep_learning/feedforward.py:19 | `weights.T` has shape `(n_nodes, rows)`, or `(0,)` without nodes. |
| `Feedforward.LayerOutputMismatch` | deep_learning/feedforward.py:19 | Transposed weights and a biased input of different shapes, neither `(1,)`, make `*` fail with ValueError. |
| `Feedforward.BiasedVectorRejected` | deep_learning/feedforward.py:19 | With a bias, every vector input of the right length is rejected by `*` with ValueError. |
| `Feedforward.OnesTransposedTimes` | deep_learning/feedforward.py:19 | For square all-ones weights, `weights.T * x == x`. |
| `Feedforward.UnbiasedSquareIsApply` | deep_learning/feedforward.py:19 | Without a bias, an `n` by `n` input to a layer of `n` nodes gives `x.apply(act)`. |
| `Feedforward.OnesRowTimes` | deep_learning/feedforward.py:19 | A row of ones times a vector is the vector's sum. |
| `Feedforward.TransposedOnes` | deep_learning/feedforward.py:19 | The transposed all-ones weights hold 1 at every position. |
| `Feedforward.OnesProductEntry` | deep_learning/feedforward.py:19 | Each entry of ones times the promoted input is the input's sum. |
| `Feedforward.OnesProductApplied` | deep_learning/feedforward.py:19 | After `apply`, each entry is `act(sum(x))`. |
| `Feedforward.OnesTransposed` | deep_learning/feedforward.py:19 | `weights.T` of all-ones weights is a fresh `(n_nodes, rows)` matrix of ones, or a vector without nodes. |
| `Feedforward.ApplyMatVec` | deep_learning/feedforward.py:19 | `(a @ x).apply(act)`: two vectors give a number, which has no `apply` (AttributeError). A matrix and a vector at rest give a fresh vector at rest: `act` mapped over the matrix-vector product. |
| `Feedforward.WeighOnes` | deep_learning/feedforward.py:19 | `(ones.T @ x).apply(act)` gives a fresh vector at rest of `n_nodes` copies of `act(sum(x))`, or AttributeError without nodes. |
| `Feedforward.Layer.constructor` | deep_learning/feedforward.py:8-13 | Only stores the fields it is given; `NewLayer` computes the validated activation and the weights first, as `__init__` does. |
| `Feedforward.NewLayer` | deep_learning/feedforward.py:8-13 | The activation name is validated first and the strategy second, each error passed on. Otherwise the layer holds the given fields and the `init_weights` weights. |
| `Feedforward.Layer.AddBias` | deep_learning/feedforward.py:21-25 | Without a bias, `x` itself. With one, a vector gains a trailing 1 (IndexError for an empty vector) and a matrix gains a column of ones. A number has no `len`. |
| `Feedforward.Layer.Forward` | deep_learning/feedforward.py:15-19 | A number has no `len`. A length other than `input_size` raises ValueError. Otherwise the result is `(weights.T * add_bias(x)).apply(act)` as `LayerOutput` states, error included, and a result is fresh and at rest. |
| `Feedforward.Layer.Weigh` | deep_learning/feedforward.py:19 | `(weights.T * xb).apply(act)` is `LayerOutput`, error included, and a result is fresh and at rest. |
| `Feedforward.Layer.ForwardMatMul` | deep_learning/feedforward.py:15-19 | `forward` with `@`: the same input checks. Then a vector input at rest gives a fresh vector at rest of `n_nodes` outputs, each `act(sum(x) + bias)`, or AttributeError without nodes. |
| `Feedforward.SumConstant` | deep_learning/feedforward.py:47 | A vector whose every entry is `c` sums to its length times `c`. |
| `Feedforward.ChainMatMul` | deep_learning/feedforward.py:45-47 | The example chain `lay2.forward(lay1.forward(x))`, with `@`: the first output is a vector at rest that the second layer accepts, and every final output is `act2(n1 * act1(sum(x) + b1) + b2)`. |
| `Feedforward.Layer.WeighMatMul` | deep_learning/feedforward.py:19 | `(weights.T @ xb).apply(act)` for a biased vector is a fresh vector at rest of `n_nodes` copies of `act(sum(xb))`. |

## Left out

- Ragged lists: the tensor operations require `m` to be rectangular for the shape `get_tensor_shape` reads, which only looks at the first element of each level. Python's behaviour on ragged input is not modelled.
- A `Tensor` nested inside another value is modelled by its list `m`. This covers the row tensors `v_append` puts in a list (`deep_learning/tensor.py:184-185`) and the `Tensor` that `init_weights` wraps directly around the tensor `ones` returns (`deep_learning/feedforward.py:42`). `get_tensor_shape` splices in the inner tensor's shape (`deep_learning/tensor.py:156-158`), and indexing reads the same entries; object identity of the inner tensors is not modelled.
- Entries are unbounded integers; floating point is not modelled.
- Validation.Lower: `str.lower` is modelled on ASCII letters only; other Unicode case mappings are not.
- `Tensor.__str__`/`__repr__`, the `print(gate)` in `forward`, and `print(dir(dl))` in `deep_learning/utils.py` are output only and left out.
- The module-level example code in `deep_learning/gates.py` and `deep_learning/feedforward.py`, and `deep_learning/testing.py` (which imports a `broadcast` that `tensor.py` does not define), are left out.
- `deep_learning/activations.py` is not part of this model: the activation is a parameter.
- Tensors.Tensor.MatMul, Tensors.Tensor.MatrixMatMul, Tensors.PromotedProduct and Tensors.MatrixProduct: for operands of rank 3 or more, only the failing first entry is stated (TypeError when every size is positive); what happens with zero sizes at rank 3 is left unstated.
- Gates.AtItems, Gates.MatMulItems, Gates.Gate.Forward and Gates.Gate.ForwardMultiply: `AtSpec` (through `AtTensors`) states every case `Tensor.MatMul` states; for an operand of rank 3 or more with a zero size it states only that the result is an error or a tensor at rest, as `MatMul` leaves that case open.
- Gates.ComputationalGraph.Forward: `forward` returns nothing. The model returns what is left of `input_values` in place of mutating the caller's list, and it states the consumption of input values, not the values computed.
- The graph constructor takes the input gates as a sequence; a non-list argument (a `set`, turned into a list in some order) is that sequence in one order.
- `Gate.parents`, written by `set_parent`, is never read by the library.
- `get_call_stack` recursion is bounded by `fuel`, which stands for the interpreter's recursion limit; the limit's actual value is not modelled.
- Feedforward.Layer.Forward: requires a biased input to have rank at most 2 (as does ForwardMatMul), since `v_append` on a rank-3 input builds rows of tensors the model does not keep well formed.
- Feedforward.Layer.ForwardMatMul: the output is stated for vector inputs whose cursor is at rest. That covers a freshly built input and the output of another layer, which is at rest (`Feedforward.ChainMatMul`).
- `Tensor.__iter__` returns the tensor itself; it is folded into `Next` and `Items`.

## Findings

| source | as written | input that shows it | evidently intended | confidence | as-written member | corrected member |
|---|---|---|---|---|---|---|
| deep_learning/feedforward.py:19 | `forward` multiplies `weights.T` by the biased input with the point-wise `*`, which needs equal shapes, so with a bias every vector input of the right length raises ValueError | `Layer(3, 'relu', 5).forward(Tensor([1, 2, 3, 4, 5]))`: `weights.T` has shape `(3, 6)`, the biased input `(6,)` | the matrix product `weights.T @ x`, giving one output per node | not executed | `Feedforward.BiasedVectorRejected` | `Feedforward.Layer.ForwardMatMul` |
