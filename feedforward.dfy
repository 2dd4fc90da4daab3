/**
 * The dense layer: its parameter registries, the weight matrix it starts
 * with, the bias column it appends to an input, and its forward pass.
 */
module Feedforward {
  import opened Wrappers
  import opened Values
  import opened Validation
  import opened Tensors
  import Utils

  // ---------------------------------------------------------------------------
  // Registries

  /** The keys of the activation registry. */
  const ActFuncs: set<string> := {"relu"}

  /** The keys of the weight-initialisation registry. */
  const WeightStrats: set<string> := {"ones"}

  /**
   * `assert_supported_params` followed by the dictionary lookup: the check
   * compares the lower-cased name, the lookup the name as given.
   */
  function Registered(keys: set<string>, name: string): (r: Outcome)
    ensures r == Fail(ValueError) <==> Lower(name) !in keys
    ensures r == Fail(KeyError) <==> Lower(name) in keys && name !in keys
    ensures r.Pass? <==> Lower(name) in keys && name in keys
  {
    if Lower(name) !in keys then Fail(ValueError)
    else if name !in keys then Fail(KeyError)
    else Pass
  }

  /** With lower-case keys, a name is accepted exactly when it is a key as given. */
  lemma RegisteredLowerKeys(keys: set<string>, name: string)
    requires forall k :: k in keys ==> Lower(k) == k
    ensures Registered(keys, name).Pass? <==> name in keys
  {
    if name in keys {
      assert Lower(name) == name;
    }
  }

  /**
   * With lower-case keys, a name that is not lower-case but lower-cases to
   * a key passes the check and then fails the lookup.
   */
  lemma CaseVariantRejected(keys: set<string>, name: string)
    requires forall k :: k in keys ==> Lower(k) == k
    requires Lower(name) in keys && Lower(name) != name
    ensures AssertSupportedParams(keys, name).Pass?
    ensures Registered(keys, name) == Fail(KeyError)
  {
  }

  /** The activation registry's keys are lower-case. */
  lemma ActFuncsLower()
    ensures forall k :: k in ActFuncs ==> Lower(k) == k
  {
    assert Lower("relu") == "relu";
  }

  /** `validate_act_func`: the registered function for the name, `relu` being the only one. */
  function ValidateActFunc(name: string, relu: int -> int): (r: Result<int -> int>)
    ensures r.Ok? <==> name == "relu"
    ensures r.Ok? ==> r.value == relu
    ensures r.Err? ==> r.error == (if Lower(name) == "relu" then KeyError else ValueError)
  {
    ActFuncsLower();
    RegisteredLowerKeys(ActFuncs, name);
    var check := Registered(ActFuncs, name);
    if check.Fail? then Err(check.error) else Ok(relu)
  }

  // ---------------------------------------------------------------------------
  // Weights

  /** The `(rows, n_nodes)` shape of the weights, with a row for the bias when there is one. */
  function WeightShape(inputSize: int, nNodes: int, hasBias: bool): seq<int> {
    [if hasBias then inputSize + 1 else inputSize, nNodes]
  }

  /**
   * `init_weights`: a fresh tensor of shape `WeightShape` (sizes below 0
   * counted as 0) holding ones, once the strategy name is registered.
   */
  method InitWeights(strat: string, hasBias: bool, inputSize: int, nNodes: int) returns (r: Result<Tensor>)
    ensures Registered(WeightStrats, strat).Fail? ==> r == Err(Registered(WeightStrats, strat).error)
    ensures Registered(WeightStrats, strat).Pass? ==>
              var s := Utils.Clamp(WeightShape(inputSize, nNodes, hasBias));
              r.Ok? && fresh(r.value) && r.value.AtRest() &&
              r.value.m == FillValue(1, s) && r.value.shape == Truncate(s)
  {
    var known := Registered(WeightStrats, strat);
    if known.Fail? {
      return Err(known.error);
    }
    var shape := WeightShape(inputSize, nNodes, hasBias);
    var ones := Ones(shape);
    var w := ones.value;
    // `Tensor(ones(shape))` wraps the tensor; its entries and shape are those of `w`.
    Utils.FillListShape(1, shape);
    var t := new Tensor(w.m);
    return Ok(t);
  }

  /**
   * For a non-negative input size and at least one node, the weights have
   * exactly the shape `WeightShape` and every entry is 1 (with no rows, when
   * there is neither an input nor a bias, the shape is cut to `(0,)`).
   */
  lemma WeightsShape(inputSize: int, nNodes: int, hasBias: bool)
    requires inputSize >= 0 && nNodes > 0
    ensures var s := Utils.Clamp(WeightShape(inputSize, nNodes, hasBias));
            var rows := if hasBias then inputSize + 1 else inputSize;
            s == [rows, nNodes] && Truncate(s) == (if rows == 0 then [0] else [rows, nNodes]) &&
            Rect(FillValue(1, s), [rows, nNodes]) &&
            forall i, j :: 0 <= i < rows && 0 <= j < nNodes ==> Entry(FillValue(1, s), [i, j]) == 1
  {
    var s := Utils.Clamp(WeightShape(inputSize, nNodes, hasBias));
    var rows := if hasBias then inputSize + 1 else inputSize;
    assert s == [rows, nNodes];
    FillValueSpec(1, s);
    forall i, j | 0 <= i < rows && 0 <= j < nNodes
      ensures Entry(FillValue(1, s), [i, j]) == 1
    {
      assert InBounds([i, j], s);
    }
  }

  /**
   * A weight shape `(rows, k)` always has a shape to transpose; with rows,
   * the transpose has shape `(k, rows)`, or `(0,)` when `k` is 0.
   */
  lemma TransposedOnesShape(s: seq<nat>)
    requires |s| == 2
    ensures |Truncate(s)| > 0
    ensures s[0] > 0 && s[1] == 0 ==> Truncate(Reverse(Truncate(s))) == [0]
    ensures s[0] > 0 && s[1] > 0 ==> Truncate(Reverse(Truncate(s))) == [s[1], s[0]]
  {
    if s[0] > 0 {
      assert s == [s[0], s[1]] && Truncate(s) == s;
      ReversePair(s[0], s[1]);
    }
  }

  // ---------------------------------------------------------------------------
  // The forward pass, as a function of values

  /**
   * The input after `add_bias`, with its shape: a vector gains a trailing 1,
   * any other input a trailing 1 on every row.
   */
  function BiasedInput(v: Value, s: seq<nat>, hasBias: bool): (Value, seq<nat>) {
    if !hasBias then (v, s)
    else
      var b := if |s| == 1 then List(Elements(v) + [Num(1)]) else AppendColumn(v, Repeat(Num(1), |Elements(v)|));
      (b, ShapeOf(b))
  }

  /**
   * `(weights.T * x).apply(act)` for weights `w` of shape `ws` and an input
   * `x` of shape `xs`: the point-wise product of the transposed weights and
   * the input (after broadcasting a shape-`(1,)` side), mapped by `act`.
   */
  function LayerOutput(w: Value, ws: seq<nat>, x: Value, xs: seq<nat>, act: int -> int): Result<Value> {
    var operands :- MulOperands(Transposed(w, ws), Truncate(Reverse(ws)), x, xs);
    Ok(Mapped(Combine(operands.0, operands.1, operands.2, Times), Truncate(operands.2), act))
  }

  /** Shapes that differ, neither of them `(1,)`, make the layer's `*` fail. */
  lemma LayerOutputMismatch(w: Value, ws: seq<nat>, x: Value, xs: seq<nat>, act: int -> int)
    requires Truncate(Reverse(ws)) != [1] && xs != [1] && Truncate(Reverse(ws)) != xs
    ensures LayerOutput(w, ws, x, xs, act) == Err(ValueError)
  {
    MulShapeMismatch(Transposed(w, ws), Truncate(Reverse(ws)), x, xs);
  }

  /**
   * With a bias, no vector input gets through `*`: the transposed weights
   * have two sizes (or are cut to `(0,)` without nodes) while the biased
   * vector has the single size `input_size + 1`, which is not 1.
   */
  lemma BiasedVectorRejected(inputSize: int, nNodes: int, xs: seq<Value>, act: int -> int)
    requires inputSize >= 1 && |xs| == inputSize && forall k :: 0 <= k < |xs| ==> xs[k].Num?
    ensures var s := Utils.Clamp(WeightShape(inputSize, nNodes, true));
            var (xb, xbs) := BiasedInput(List(xs), [inputSize], true);
            LayerOutput(FillValue(1, s), Truncate(s), xb, xbs, act) == Err(ValueError)
  {
    var s := Utils.Clamp(WeightShape(inputSize, nNodes, true));
    var (xb, xbs) := BiasedInput(List(xs), [inputSize], true);
    assert xb == List(xs + [Num(1)]);
    assert xb.items[0] == xs[0] && xs[0].Num?;
    assert ShapeOf(xb) == [|xb.items|] + ShapeOf(xb.items[0]);
    assert xbs == [inputSize + 1];
    var ws := Truncate(s);
    if nNodes <= 0 {
      assert ws == [inputSize + 1, 0];
      assert Reverse(ws) == [0, inputSize + 1];
      assert Truncate(Reverse(ws)) == [0];
    } else {
      assert ws == [inputSize + 1, nNodes];
      assert Reverse(ws) == [nNodes, inputSize + 1];
      assert Truncate(Reverse(ws)) == [nNodes, inputSize + 1];
    }
    LayerOutputMismatch(FillValue(1, s), ws, xb, xbs, act);
  }

  /** Two square values of one shape: ones transposed are ones, and ones times `x` is `x`. */
  lemma OnesTransposedTimes(x: Value, n: nat)
    requires n > 0 && Rect(x, [n, n])
    ensures Combine(Transposed(FillValue(1, [n, n]), [n, n]), x, [n, n], Times) == x
  {
    var s: seq<nat> := [n, n];
    var w := Transposed(FillValue(1, s), s);
    assert Reverse(s) == s;
    TransposedSpec(FillValue(1, s), s);
    FillValueSpec(1, s);
    forall t | InBounds(t, s) ensures Entry(w, t) == 1 {
      ReverseInBounds(t, s);
      ReverseReverse(t);
      assert Entry(w, Reverse(Reverse(t))) == Entry(FillValue(1, s), Reverse(t));
    }
    CombineSpec(w, x, s, Times);
    Extensionality(Combine(w, x, s, Times), x, s);
  }

  /**
   * Without a bias, an `n` by `n` input with `n` the number of nodes and the
   * input size gets through `*`, and the layer applies `act` to each of its entries.
   */
  lemma UnbiasedSquareIsApply(n: nat, x: Value, act: int -> int)
    requires n > 0 && Rect(x, [n, n])
    ensures var s := Utils.Clamp(WeightShape(n, n, false));
            LayerOutput(FillValue(1, s), Truncate(s), x, [n, n], act) == Ok(Mapped(x, [n, n], act))
  {
    var s := Utils.Clamp(WeightShape(n, n, false));
    assert s == [n, n] && Truncate(s) == s && Reverse(s) == s;
    OnesTransposedTimes(x, n);
  }

  // ---------------------------------------------------------------------------
  // The matrix-vector product the forward pass evidently intends

  /** The sum of the numbers in `xs`. */
  function Sum(xs: seq<Value>): int {
    if |xs| == 0 then 0 else Sum(xs[..|xs| - 1]) + Entry(xs[|xs| - 1], [])
  }

  /** A row of ones times a vector is the sum of the vector's first `n` entries. */
  lemma {:induction false} OnesRowTimes(a: Value, x: Value, i: int, n: nat)
    requires x.List? && n <= |x.items|
    requires forall j :: 0 <= j < n ==> Entry(a, [i, j]) == 1
    ensures MatVecAt(a, x, i, n) == Sum(x.items[..n])
  {
    if n > 0 {
      OnesRowTimes(a, x, i, n - 1);
      assert x.items[..n][..n - 1] == x.items[..n - 1];
      var t: seq<int> := [n - 1];
      assert t[1..] == [];
      assert Entry(x, t) == Entry(x.items[n - 1], []);
    }
  }

  /** The transposed `(rows, k)` ones weights hold 1 at `(i, j)` of shape `(k, rows)`. */
  lemma TransposedOnes(s: seq<nat>, i: int, j: int)
    requires |s| == 2 && 0 <= i < s[1] && 0 <= j < s[0]
    ensures Entry(Transposed(FillValue(1, s), s), [i, j]) == 1
  {
    var t: seq<int> := [j, i];
    assert InBounds(t, s);
    ReversePair(j, i);
    TransposedAt(FillValue(1, s), s, t);
    FillValueEntry(1, s, t);
  }

  lemma ReversePair<T>(a: T, b: T)
    ensures Reverse([a, b]) == [b, a]
  {
    assert Reverse([a, b]) == Reverse([b]) + [a];
  }

  /** `w` holds 1 at every `(i, j)` with `i < k` and `j < rows`. */
  ghost predicate AllOnes(w: Value, k: nat, rows: nat) {
    forall i, j :: 0 <= i < k && 0 <= j < rows ==> Entry(w, [i, j]) == 1
  }

  /** Entry `i` of a `(k, rows)` matrix of ones times a promoted vector is the vector's sum. */
  lemma OnesProductEntry(w: Value, rows: nat, k: nat, xs: seq<Value>, i: int)
    requires 0 < rows == |xs| && 0 <= i < k && AllOnes(w, k, rows)
    ensures Entry(MatProduct(w, ColumnOf(xs), k, rows, 1), [i]) == Sum(xs)
  {
    MatProductSpec(w, ColumnOf(xs), k, rows, 1);
    PromotedColumn(w, List(xs), i, rows);
    OnesRowTimes(w, List(xs), i, rows);
    assert xs[..rows] == xs;
  }

  /**
   * `(w @ x).apply(act)` for a `(k, rows)` matrix of ones and a vector `xs`
   * of length `rows`: each of the `k` entries is `act` of the sum of `xs`.
   */
  lemma OnesProductApplied(w: Value, rows: nat, k: nat, xs: seq<Value>, act: int -> int, v: Value)
    requires 0 < rows == |xs| && k > 0 && AllOnes(w, k, rows)
    requires v == Mapped(MatProduct(w, ColumnOf(xs), k, rows, 1), [k], act)
    ensures forall i :: 0 <= i < k ==> Entry(v, [i]) == act(Sum(xs))
  {
    forall i | 0 <= i < k ensures Entry(v, [i]) == act(Sum(xs)) {
      OnesProductAppliedAt(w, rows, k, xs, act, i);
    }
  }

  lemma OnesProductAppliedAt(w: Value, rows: nat, k: nat, xs: seq<Value>, act: int -> int, i: int)
    requires 0 < rows == |xs| && 0 <= i < k && AllOnes(w, k, rows)
    ensures Entry(Mapped(MatProduct(w, ColumnOf(xs), k, rows, 1), [k], act), [i]) == act(Sum(xs))
  {
    var p := MatProduct(w, ColumnOf(xs), k, rows, 1);
    assert InBounds([i], [k]);
    TabulateEntry([k], t => act(Entry(p, t)), [i]);
    OnesProductEntry(w, rows, k, xs, i);
  }

  /**
   * `weights.T` for all-ones weights of shape `s = (rows, k)`: with rows, a
   * `(k, rows)` matrix of ones, or a vector when `k` is 0.
   */
  method OnesTransposed(w: Tensor, s: seq<nat>) returns (wt: Tensor)
    requires |s| == 2 && w.Wellformed() && w.m == FillValue(1, s) && w.shape == Truncate(s)
    ensures fresh(wt) && wt.AtRest()
    ensures s[0] > 0 && s[1] == 0 ==> wt.nDims == 1
    ensures s[0] > 0 && s[1] > 0 ==> wt.nDims == 2 && wt.shape == [s[1], s[0]] && AllOnes(wt.m, s[1], s[0])
  {
    TransposedOnesShape(s);
    var transposed := w.T();
    wt := transposed.value;
    forall i, j | 0 <= i < s[1] && 0 <= j < s[0] ensures Entry(wt.m, [i, j]) == 1 {
      TransposedOnes(s, i, j);
    }
  }

  /**
   * `(a @ x).apply(act)`: two vectors give a number, which has no `apply`;
   * a matrix and a vector at rest give `act` of the matrix-vector product.
   */
  method ApplyMatVec(a: Tensor, x: Tensor, act: int -> int) returns (r: Result<Tensor>)
    requires a.Wellformed() && x.Wellformed()
    modifies x`iterCount
    ensures a.nDims == 1 && x.nDims == 1 ==> r == Err(AttributeError)
    ensures a.nDims == 2 && x.nDims == 1 && a.shape[1] == x.shape[0] && x.shape[0] > 0 && a.shape[0] > 0 &&
            old(x.iterCount) == -1 ==>
              r.Ok? && fresh(r.value) && r.value.AtRest() && r.value.shape == [a.shape[0]] &&
              r.value.m == Mapped(MatProduct(a.m, ColumnOf(x.m.items), a.shape[0], a.shape[1], 1), [a.shape[0]], act)
  {
    var prod :- a.MatMul(x);
    if prod.Scalar? {
      // `int` has no `apply`.
      return Err(AttributeError);
    }
    r := prod.t.Apply(act);
    if a.nDims == 2 && x.nDims == 1 && a.shape[1] == x.shape[0] && x.shape[0] > 0 && a.shape[0] > 0 {
      MatProductSpec(a.m, ColumnOf(x.m.items), a.shape[0], a.shape[1], 1);
      VectorShapeUnique(prod.t.m, a.shape[0], prod.t.shape);
    }
  }

  /**
   * `(w.T @ x).apply(act)` for all-ones weights `w` of shape `s = (rows, k)`:
   * a vector of length `rows` gives `k` copies of `act(sum(x))`, or an error
   * when `k` is 0.
   */
  method WeighOnes(w: Tensor, s: seq<nat>, x: Tensor, act: int -> int) returns (r: Result<Tensor>)
    requires |s| == 2 && w.Wellformed() && w.m == FillValue(1, s) && w.shape == Truncate(s)
    requires x.Wellformed()
    modifies x`iterCount
    ensures x.nDims == 1 && x.shape[0] == s[0] > 0 && s[1] == 0 ==> r == Err(AttributeError)
    ensures x.nDims == 1 && x.shape[0] == s[0] > 0 && s[1] > 0 && old(x.iterCount) == -1 ==>
              r.Ok? && fresh(r.value) && r.value.AtRest() && r.value.shape == [s[1]] &&
              forall i :: 0 <= i < s[1] ==> Entry(r.value.m, [i]) == act(Sum(x.m.items))
  {
    ghost var ready := x.nDims == 1 && x.shape[0] == s[0] > 0 && s[1] > 0 && x.iterCount == -1;
    ghost var xm := x.m;
    var wt := OnesTransposed(w, s);
    ghost var wm := wt.m;
    r := ApplyMatVec(wt, x, act);
    if ready {
      OnesProductApplied(wm, s[0], s[1], xm.items, act, r.value.m);
    }
  }

  /** A value of shape `(k,)` with `k > 0` has no other shape. */
  lemma VectorShapeUnique(v: Value, k: nat, s: seq<nat>)
    requires k > 0 && Rect(v, [k]) && Rect(v, s)
    ensures s == [k]
  {
    var unit: seq<nat> := [k];
    assert Rect(v.items[0], unit[1..]);
    assert Rect(v.items[0], s[1..]);
  }

  // ---------------------------------------------------------------------------
  // The layer object

  class Layer {
    var actFunc: int -> int
    var nNodes: int
    var inputSize: int
    var hasBias: bool
    var weights: Tensor

    /** The weights are the ones `init_weights` made for this layer's sizes. */
    ghost predicate Valid()
      reads this, weights
    {
      var s := Utils.Clamp(WeightShape(inputSize, nNodes, hasBias));
      weights.Wellformed() && weights.m == FillValue(1, s) && weights.shape == Truncate(s)
    }

    /**
     * Only stores the fields it is given. `__init__` also validates the
     * activation and builds the weights; `NewLayer` models it in full and
     * establishes `Valid()`.
     */
    constructor (actFunc: int -> int, nNodes: int, inputSize: int, hasBias: bool, weights: Tensor)
      ensures this.actFunc == actFunc && this.nNodes == nNodes && this.inputSize == inputSize
      ensures this.hasBias == hasBias && this.weights == weights
    {
      this.actFunc := actFunc;
      this.nNodes := nNodes;
      this.inputSize := inputSize;
      this.hasBias := hasBias;
      this.weights := weights;
    }

    /**
     * `add_bias`: without a bias the input itself; with one, `x.v_append`
     * of a fresh vector of `len(x)` ones.
     */
    method AddBias(x: Tensor) returns (r: Result<Tensor>)
      requires x.Wellformed()
      ensures !hasBias ==> r == Ok(x)
      ensures hasBias && x.nDims == 0 ==> r == Err(TypeError)
      ensures hasBias && x.nDims == 1 ==>
                if x.shape[0] == 0 then r == Err(IndexError)
                else r.Ok? && fresh(r.value) && r.value.AtRest() &&
                     r.value.m == List(x.m.items + [Num(1)]) && r.value.shape == [x.shape[0] + 1]
      ensures hasBias && x.nDims >= 2 ==>
                r.Ok? && fresh(r.value) && r.value.iterCount == -1 &&
                r.value.m == AppendColumn(x.m, Repeat(Num(1), x.shape[0])) &&
                r.value.shape == ShapeOf(r.value.m) && (x.nDims == 2 ==> r.value.Wellformed())
      ensures hasBias && x.nDims > 0 && r.Ok? ==> (r.value.m, r.value.shape) == BiasedInput(x.m, x.shape, true)
    {
      if !hasBias {
        return Ok(x);
      }
      var n :- x.Len();
      var ones := new Tensor(List(Repeat(Num(1), n)));
      assert Rect(ones.m, [n]);
      ShapeOfRect(ones.m, [n]);
      r := x.VAppend(ones);
      if x.nDims == 1 && r.Ok? {
        assert x.m.items[0] == r.value.m.items[0];
        assert Rect(x.m.items[0], x.shape[1..]) && x.shape[1..] == [];
      }
    }

    /**
     * `forward`: the input's length must be the input size; then the biased
     * input is multiplied point-wise by the transposed weights and mapped by
     * the activation.
     */
    method Forward(x: Tensor) returns (r: Result<Tensor>)
      requires Valid() && x.Wellformed()
      requires hasBias ==> x.nDims <= 2
      ensures x.nDims == 0 ==> r == Err(TypeError)
      ensures x.nDims > 0 && x.shape[0] != inputSize ==> r == Err(ValueError)
      ensures hasBias && x.nDims == 1 && x.shape[0] == 0 && inputSize == 0 ==> r == Err(IndexError)
      ensures x.nDims > 0 && x.shape[0] == inputSize && !(hasBias && x.nDims == 1 && inputSize == 0) ==>
                var (xb, xbs) := BiasedInput(x.m, x.shape, hasBias);
                var out := LayerOutput(weights.m, weights.shape, xb, xbs, actFunc);
                (r.Ok? <==> out.Ok?) && (r.Err? ==> r.error == out.error) &&
                (r.Ok? ==> fresh(r.value) && r.value.AtRest() && r.value.m == out.value)
    {
      var n :- x.Len();
      if n != inputSize {
        return Err(ValueError);
      }
      var xb :- AddBias(x);
      r := Weigh(xb);
    }

    /** `(weights.T * xb).apply(act_func)`, the second half of `forward`. */
    method Weigh(xb: Tensor) returns (r: Result<Tensor>)
      requires weights.Wellformed() && |weights.shape| > 0 && xb.Wellformed()
      ensures var out := LayerOutput(weights.m, weights.shape, xb.m, xb.shape, actFunc);
              (r.Ok? <==> out.Ok?) && (r.Err? ==> r.error == out.error) &&
              (r.Ok? ==> fresh(r.value) && r.value.AtRest() && r.value.m == out.value)
    {
      var transposed := weights.T();
      var wt := transposed.value;
      var prod :- wt.Mul(xb);
      r := prod.Apply(actFunc);
    }

    /**
     * `forward` with the matrix product `weights.T @ x` in place of `*`: a
     * vector input at rest gives one output per node, each `act` of the sum
     * of the input (plus 1 for the bias), the weights being ones. Without
     * nodes the product is a number, which has no `apply`.
     */
    method ForwardMatMul(x: Tensor) returns (r: Result<Tensor>)
      requires Valid() && x.Wellformed()
      requires hasBias ==> x.nDims <= 2
      modifies x`iterCount
      ensures x.nDims == 0 ==> r == Err(TypeError)
      ensures x.nDims > 0 && x.shape[0] != inputSize ==> r == Err(ValueError)
      ensures hasBias && x.nDims == 1 && x.shape[0] == 0 && inputSize == 0 ==> r == Err(IndexError)
      ensures x.nDims == 1 && x.shape[0] == inputSize && inputSize > 0 && nNodes <= 0 ==>
                r == Err(AttributeError)
      ensures x.nDims == 1 && x.shape[0] == inputSize && inputSize > 0 && nNodes > 0 &&
              old(x.iterCount) == -1 ==>
                r.Ok? && fresh(r.value) && r.value.AtRest() && r.value.shape == [nNodes] &&
                forall i :: 0 <= i < nNodes ==>
                  Entry(r.value.m, [i]) == actFunc(Sum(x.m.items) + if hasBias then 1 else 0)
    {
      var n :- x.Len();
      if n != inputSize {
        return Err(ValueError);
      }
      var xb :- AddBias(x);
      if hasBias && x.nDims == 1 {
        assert (x.m.items + [Num(1)])[..|x.m.items|] == x.m.items;
      }
      r := WeighMatMul(xb);
    }

    /** `(weights.T @ xb).apply(act_func)` for a biased input `xb`. */
    method WeighMatMul(xb: Tensor) returns (r: Result<Tensor>)
      requires Valid() && xb.Wellformed()
      modifies xb`iterCount
      ensures var rows := if hasBias then inputSize + 1 else inputSize;
              xb.nDims == 1 && xb.shape[0] == rows && rows > 0 && nNodes <= 0 ==> r == Err(AttributeError)
      ensures var rows := if hasBias then inputSize + 1 else inputSize;
              xb.nDims == 1 && xb.shape[0] == rows && rows > 0 && nNodes > 0 && old(xb.iterCount) == -1 ==>
                r.Ok? && fresh(r.value) && r.value.AtRest() && r.value.shape == [nNodes] &&
                forall i :: 0 <= i < nNodes ==> Entry(r.value.m, [i]) == actFunc(Sum(xb.m.items))
    {
      r := WeighOnes(weights, Utils.Clamp(WeightShape(inputSize, nNodes, hasBias)), xb, actFunc);
    }
  }

  /** A vector whose every entry is `c` sums to its length times `c`. */
  lemma {:induction false} SumConstant(v: Value, k: nat, c: int)
    requires Rect(v, [k]) && forall i :: 0 <= i < k ==> Entry(v, [i]) == c
    ensures Sum(v.items) == k * c
  {
    var n := k;
    while n > 0
      invariant 0 <= n <= k
      invariant Sum(v.items[..k]) == Sum(v.items[..n]) + (k - n) * c
    {
      assert v.items[..n][..n - 1] == v.items[..n - 1];
      assert Entry(v.items[n - 1], []) == Entry(v, [n - 1]);
      n := n - 1;
    }
    assert v.items[..k] == v.items;
  }

  /**
   * The module's example `lay2.forward(lay1.forward(x))` with `@` in place of
   * `*`: the first layer's output is a fresh vector at rest of `n_nodes`
   * entries, so it feeds the second layer when that is its input size, and
   * every output of the second layer is `act2(n1 * act1(sum(x) + b1) + b2)`.
   */
  method ChainMatMul(lay1: Layer, lay2: Layer, x: Tensor) returns (r: Result<Tensor>)
    requires lay1.Valid() && lay2.Valid() && x.Wellformed() && x != lay2.weights
    requires x.nDims == 1 && x.shape[0] == lay1.inputSize > 0 && x.iterCount == -1
    requires lay1.nNodes == lay2.inputSize > 0 && lay2.nNodes > 0
    modifies x`iterCount
    ensures r.Ok? && fresh(r.value) && r.value.AtRest() && r.value.shape == [lay2.nNodes]
    ensures var hidden := lay1.actFunc(Sum(old(x.m.items)) + if lay1.hasBias then 1 else 0);
            forall i :: 0 <= i < lay2.nNodes ==>
              Entry(r.value.m, [i]) == lay2.actFunc(lay1.nNodes * hidden + if lay2.hasBias then 1 else 0)
  {
    ghost var hidden := lay1.actFunc(Sum(x.m.items) + if lay1.hasBias then 1 else 0);
    var hiddenLayer := lay1.ForwardMatMul(x);
    var y := hiddenLayer.value;
    SumConstant(y.m, lay1.nNodes, hidden);
    r := lay2.ForwardMatMul(y);
  }

  /**
   * `Layer(n_nodes, act_func, input_size, has_bias, w_init_strat)`: the
   * activation name is validated first, then the weights are initialised.
   */
  method NewLayer(nNodes: int, actName: string, inputSize: int, hasBias: bool, strat: string, relu: int -> int)
    returns (r: Result<Layer>)
    ensures ValidateActFunc(actName, relu).Err? ==> r == Err(ValidateActFunc(actName, relu).error)
    ensures ValidateActFunc(actName, relu).Ok? && Registered(WeightStrats, strat).Fail? ==>
              r == Err(Registered(WeightStrats, strat).error)
    ensures ValidateActFunc(actName, relu).Ok? && Registered(WeightStrats, strat).Pass? ==>
              r.Ok? && fresh(r.value) && fresh(r.value.weights) && r.value.Valid() &&
              r.value.actFunc == relu && r.value.nNodes == nNodes && r.value.inputSize == inputSize &&
              r.value.hasBias == hasBias && r.value.weights.iterCount == -1
  {
    var act :- ValidateActFunc(actName, relu);
    var weights :- InitWeights(strat, hasBias, inputSize, nNodes);
    var layer := new Layer(act, nNodes, inputSize, hasBias, weights);
    return Ok(layer);
  }
}
