/**
 * The computational graph: gates, the successor map between them, an
 * iterative depth-first topological sort, parent and call-stack queries, and
 * the forward pass that schedules values through a FIFO queue.
 */
module Gates {
  import opened Wrappers
  import opened Values
  import opened Tensors

  // ---------------------------------------------------------------------------
  // Sequences as Python lists of distinct objects

  /** No element occurs twice. */
  predicate Distinct<T(==)>(s: seq<T>) {
    forall i, j :: 0 <= i < j < |s| ==> s[i] != s[j]
  }

  /** The elements of a sequence, as a set. */
  function Elems<T>(s: seq<T>): set<T> {
    set x | x in s
  }

  /** A sequence without repetitions has as many distinct elements as it is long. */
  lemma {:induction false} DistinctCard<T>(s: seq<T>)
    requires Distinct(s)
    ensures |Elems(s)| == |s|
  {
    if |s| > 0 {
      DistinctCard(s[1..]);
      assert Elems(s) == Elems(s[1..]) + {s[0]};
      assert s[0] !in Elems(s[1..]);
    }
  }

  /**
   * The first occurrence of each element, in order: the key order of a
   * Python dict after inserting the elements of `s` one by one.
   */
  function Dedup<T(==)>(s: seq<T>): (d: seq<T>)
    ensures Distinct(d) && Elems(d) == Elems(s)
  {
    if |s| == 0 then []
    else
      var front, last := s[..|s| - 1], s[|s| - 1];
      assert Elems(s) == Elems(front) + {last} by { assert s == front + [last]; }
      if last in front then Dedup(front) else Dedup(front) + [last]
  }

  /** Extending a prefix by one element, as the constructor's loop does. */
  lemma DedupStep<T>(s: seq<T>, k: nat)
    requires k < |s|
    ensures Elems(s[..k + 1]) == Elems(s[..k]) + {s[k]}
    ensures Dedup(s[..k + 1]) == if s[k] in Elems(s[..k]) then Dedup(s[..k]) else Dedup(s[..k]) + [s[k]]
  {
    assert s[..k + 1] == s[..k] + [s[k]];
    assert s[..k + 1][..k] == s[..k];
  }

  /** A sequence without repetitions is its own first occurrences. */
  lemma {:induction false} DedupDistinct<T>(s: seq<T>)
    requires Distinct(s)
    ensures Dedup(s) == s
  {
    if |s| > 0 {
      DedupDistinct(s[..|s| - 1]);
      assert s == s[..|s| - 1] + [s[|s| - 1]];
    }
  }

  /**
   * Iterating a Python `set`: its elements, each once, in an order the
   * language leaves open (every order is possible here).
   */
  method Enumerate<T(==)>(s: set<T>) returns (r: seq<T>)
    ensures Distinct(r) && Elems(r) == s
  {
    r := [];
    var rest := s;
    while rest != {}
      invariant Distinct(r) && Elems(r) + rest == s && Elems(r) !! rest
      decreases |rest|
    {
      var x :| x in rest;
      r := r + [x];
      rest := rest - {x};
    }
  }

  // ---------------------------------------------------------------------------
  // Python arithmetic on plain numbers and lists

  /** `xs * n` for a Python list: `n` copies of `xs` one after another, none when `n <= 0`. */
  function ListRepeat(xs: seq<Value>, n: int): (r: seq<Value>)
    ensures |r| == |xs| * (if n > 0 then n else 0)
    ensures forall i :: 0 <= i < |r| ==> r[i] == xs[i % |xs|]
    decreases if n > 0 then n else 0
  {
    if n <= 0 then []
    else
      var front := ListRepeat(xs, n - 1);
      assert |front| == |xs| * (n - 1);
      forall i | |front| <= i < |front| + |xs|
        ensures i % |xs| == i - |front|
      {
        DivModUnique(n - 1, i - |front|, |xs|);
      }
      front + xs
  }

  /** Python `a + b` on plain values: numbers add, lists concatenate, a mix raises TypeError. */
  function PlusRaw(a: Value, b: Value): (r: Result<Value>)
    ensures r.Ok? <==> a.Num? == b.Num?
    ensures r.Err? ==> r.error == TypeError
    ensures a.Num? && b.Num? ==> r.Ok? && r.value.Num? && r.value.n - b.n == a.n
    ensures a.List? && b.List? ==>
              r.Ok? && r.value.List? && |r.value.items| == |a.items| + |b.items| &&
              r.value.items[..|a.items|] == a.items && r.value.items[|a.items|..] == b.items
  {
    match (a, b)
    case (Num(x), Num(y)) => Ok(Num(x + y))
    case (List(xs), List(ys)) => Ok(List(xs + ys))
    case _ => Err(TypeError)
  }

  /**
   * Python `a * b` on plain values: numbers multiply, a list and a number
   * repeat the list, two lists raise TypeError.
   */
  function TimesRaw(a: Value, b: Value): (r: Result<Value>)
    ensures r.Ok? <==> a.Num? || b.Num?
    ensures r.Err? ==> r.error == TypeError
    ensures a.Num? && b.Num? ==> r == Ok(Num(a.n * b.n))
    ensures a.List? && b.Num? ==> r == Ok(List(ListRepeat(a.items, b.n)))
    ensures a.Num? && b.List? ==> r == Ok(List(ListRepeat(b.items, a.n)))
  {
    match (a, b)
    case (Num(x), Num(y)) => Ok(Num(x * y))
    case (List(xs), Num(y)) => Ok(List(ListRepeat(xs, y)))
    case (Num(x), List(ys)) => Ok(List(ListRepeat(ys, x)))
    case _ => Err(TypeError)
  }

  // ---------------------------------------------------------------------------
  // Gates

  /** What flows between gates: a tensor object, or a plain Python number or list. */
  datatype Item = Obj(t: Tensor) | Raw(v: Value)

  /** A plain result as a gate output. */
  function Lift(r: Result<Value>): (o: Result<Item>)
    ensures r.Ok? <==> o.Ok?
    ensures r.Ok? ==> o.value == Raw(r.value)
    ensures r.Err? ==> o.error == r.error
  {
    if r.Ok? then Ok(Raw(r.value)) else Err(r.error)
  }

  /** The tensor objects among some items. */
  function Objs(items: seq<Item>): set<Tensor> {
    set i | i in items && i.Obj? :: i.t
  }

  /** Plain values added to a queue bring no tensor objects with them. */
  lemma ObjsRaw(items: seq<Item>, extra: seq<Item>)
    requires forall k :: 0 <= k < |extra| ==> extra[k].Raw?
    ensures Objs(items + extra) == Objs(items)
  {
    forall t | t in Objs(items + extra)
      ensures t in Objs(items)
    {
      var i :| i in items + extra && i.Obj? && i.t == t;
      assert i in items;
    }
  }

  /** The tensor object an optional item or a result holds, if any. */
  function OptObjs(o: Option<Item>): set<Tensor> {
    if o.Some? && o.value.Obj? then {o.value.t} else {}
  }

  /** Plain values as queue items. */
  function Raws(vs: seq<Value>): seq<Item> {
    seq(|vs|, k requires 0 <= k < |vs| => Raw(vs[k]))
  }

  /**
   * `results'` is `queue` extended by `out`, a tensor iterated on from the
   * cursor `from`; a number is not iterable.
   */
  ghost predicate Extends(out: Item, from: int, queue: seq<Item>, r: Outcome, results': seq<Item>)
    reads OptObjs(Some(out))
  {
    assert out.Obj? ==> out.t in OptObjs(Some(out));
    match out
    case Raw(v) => if v.Num? then r == Fail(TypeError) else r == Pass && results' == queue + Raws(v.items)
    case Obj(t) =>
      if t.m.Num? then r == Fail(TypeError)
      else -1 <= from < |t.m.items| && r == Pass && results' == queue + Raws(t.m.items[from + 1..])
  }

  function ResultObjs(r: Result<Item>): set<Tensor> {
    if r.Ok? && r.value.Obj? then {r.value.t} else {}
  }

  /** `r` is a tensor at rest holding `m` with shape `Truncate(s)`, as `zeros` and the fill loop leave it. */
  ghost predicate TensorResult(r: Result<Item>, m: Value, s: seq<nat>)
    reads ResultObjs(r)
  {
    r.Ok? && r.value.Obj? && r.value.t.AtRest() && r.value.t.m == m && r.value.t.shape == Truncate(s)
  }

  /**
   * `a + b` between items: two tensors go through `Tensor.__add__`; a tensor
   * plus a plain value fails looking up `.shape`; a plain value plus a
   * tensor has no `__radd__` to fall back on.
   */
  ghost predicate PlusSpec(a: Item, b: Item, r: Result<Item>)
    reads Objs([a, b]), ResultObjs(r)
  {
    assert a.Obj? ==> a.t in Objs([a, b]);
    assert b.Obj? ==> b.t in Objs([a, b]);
    match (a, b)
    case (Obj(p), Obj(q)) =>
      if p.shape != q.shape then r == Err(ValueError)
      else if |p.shape| == 0 then r == Err(IndexError)
      else TensorResult(r, Combine(p.m, q.m, p.shape, Plus), p.shape)
    case (Obj(_), Raw(_)) => r == Err(AttributeError)
    case (Raw(_), Obj(_)) => r == Err(TypeError)
    case (Raw(x), Raw(y)) => r == Lift(PlusRaw(x, y))
  }

  /**
   * `a * b` where `b` is a gate's cached input, `None` before any
   * `forward`: two tensors go through `Tensor.__mul__`; a tensor times
   * anything else fails looking up `.shape`; a plain value times a tensor
   * or `None` raises TypeError.
   */
  ghost predicate TimesSpec(a: Item, b: Option<Item>, r: Result<Item>)
    reads Objs([a]), OptObjs(b), ResultObjs(r)
  {
    assert a.Obj? ==> a.t in Objs([a]);
    match a
    case Obj(p) =>
      if b.Some? && b.value.Obj? then
        var q := b.value.t;
        var ops := MulOperands(p.m, p.shape, q.m, q.shape);
        if ops.Err? then r == Err(ops.error)
        else TensorResult(r, Combine(ops.value.0, ops.value.1, ops.value.2, Times), ops.value.2)
      else r == Err(AttributeError)
    case Raw(x) =>
      if b.Some? && b.value.Raw? then r == Lift(TimesRaw(x, b.value.v)) else r == Err(TypeError)
  }

  /**
   * `a @ b` between items, for `b`'s cursor at `c` before the call: two
   * tensors as `AtTensors` says; a tensor and a plain value fail at
   * `.n_dims` or `.shape`; a plain value has no `@`.
   */
  ghost predicate AtSpec(a: Item, b: Item, c: int, r: Result<Item>)
    reads Objs([a, b]), ResultObjs(r)
  {
    assert a.Obj? ==> a.t in Objs([a, b]);
    assert b.Obj? ==> b.t in Objs([a, b]);
    match (a, b)
    case (Obj(p), Obj(q)) => AtTensors(p, q, c, r)
    case (Obj(p), Raw(_)) => r == Err(if p.nDims == 0 then IndexError else AttributeError)
    case (Raw(_), _) => r == Err(TypeError)
  }

  /**
   * `p @ q` between two tensors, for `q`'s cursor at `c` before the call:
   * two vectors give the sum of products over `zip`; two matrices, or a
   * matrix and a vector at rest, give the matrix product; otherwise the
   * errors of `Tensor.__matmul__`, down to the first entry's failing sum
   * at rank 3 or more.
   */
  ghost predicate AtTensors(p: Tensor, q: Tensor, c: int, r: Result<Item>)
    reads p, q, ResultObjs(r)
  {
    if p.nDims == 1 && q.nDims == 1 then
      p.m.List? && q.m.List? && -1 <= c < |q.m.items| && r == Ok(Raw(Num(ZipDot(p.m.items, q.m.items[c + 1..]))))
    else if p.nDims < 2 || q.nDims == 0 || |p.shape| < 2 || |q.shape| == 0 then r == Err(IndexError)
    else if p.shape[1] != q.shape[0] then r == Err(ValueError)
    else if p.nDims == 2 && q.nDims == 2 && |q.shape| == 2 then
      r.Ok? && r.value.Obj? && r.value.t.AtRest() &&
      r.value.t.m == MatProduct(p.m, q.m, p.shape[0], p.shape[1], q.shape[1])
    else if p.nDims == 2 && q.nDims == 1 && c == -1 && q.m.List? then
      if p.shape[1] == 0 then r == Err(IndexError)
      else r.Ok? && r.value.Obj? && r.value.t.AtRest() &&
           r.value.t.m == MatProduct(p.m, ColumnOf(q.m.items), p.shape[0], p.shape[1], 1)
    // a vector part-way through an iteration promotes to too few rows
    else if q.nDims == 1 && c >= 0 && p.shape[0] > 0 then r == Err(IndexError)
    // an operand of rank 3 or more makes the first entry's sum fail
    else if p.nDims >= 3 && q.nDims == 1 && c == -1 && p.shape[0] > 0 && p.shape[1] > 0 then r == Err(TypeError)
    else if (p.nDims >= 3 || q.nDims >= 3) && q.nDims >= 2 && |q.shape| >= 2 && p.shape[0] > 0 && p.shape[1] > 0 && q.shape[1] > 0 then r == Err(TypeError)
    // rank 3 or more with a zero size
    else r.Err? || (r.value.Obj? && r.value.t.AtRest())
  }

  /** `a + b` between items. */
  method PlusItems(a: Item, b: Item) returns (r: Result<Item>)
    requires a.Obj? ==> a.t.Wellformed()
    requires b.Obj? ==> b.t.Wellformed()
    ensures PlusSpec(a, b, r)
    ensures r.Ok? && r.value.Obj? ==> fresh(r.value.t)
  {
    match (a, b)
    case (Obj(p), Obj(q)) =>
      var t :- p.Add(q);
      r := Ok(Obj(t));
    case (Obj(_), Raw(_)) =>
      r := Err(AttributeError);
    case (Raw(_), Obj(_)) =>
      r := Err(TypeError);
    case (Raw(u), Raw(w)) =>
      r := Lift(PlusRaw(u, w));
  }

  /** `a * b` between an item and a gate's cached input. */
  method TimesItems(a: Item, b: Option<Item>) returns (r: Result<Item>)
    requires a.Obj? ==> a.t.Wellformed()
    requires b.Some? && b.value.Obj? ==> b.value.t.Wellformed()
    ensures TimesSpec(a, b, r)
    ensures r.Ok? && r.value.Obj? ==> fresh(r.value.t)
  {
    match a
    case Obj(p) =>
      if b.Some? && b.value.Obj? {
        var t :- p.Mul(b.value.t);
        r := Ok(Obj(t));
      } else {
        r := Err(AttributeError);
      }
    case Raw(u) =>
      if b.Some? && b.value.Raw? {
        r := Lift(TimesRaw(u, b.value.v));
      } else {
        r := Err(TypeError);
      }
  }

  /** `a @ b` between items; only `b`'s cursor can move. */
  method AtItems(a: Item, b: Item) returns (r: Result<Item>)
    requires a.Obj? ==> a.t.Wellformed()
    requires b.Obj? ==> b.t.Wellformed()
    modifies Objs([b])`iterCount
    ensures AtSpec(a, b, if b.Obj? then old(b.t.iterCount) else -1, r)
    ensures b.Obj? ==> b.t.Wellformed()
    ensures r.Ok? && r.value.Obj? ==> fresh(r.value.t)
  {
    match (a, b)
    case (Obj(p), Obj(q)) =>
      assert q in Objs([b]);
      r := MatMulItems(p, q);
    case (Obj(p), Raw(_)) =>
      r := Err(if p.nDims == 0 then IndexError else AttributeError);
    case (Raw(_), _) =>
      r := Err(TypeError);
  }

  /** `p @ q` between two tensor items: a number for two vectors, otherwise a tensor. */
  method MatMulItems(p: Tensor, q: Tensor) returns (r: Result<Item>)
    requires p.Wellformed() && q.Wellformed()
    modifies q`iterCount
    ensures AtTensors(p, q, old(q.iterCount), r)
    ensures q.Wellformed()
    ensures r.Ok? && r.value.Obj? ==> fresh(r.value.t)
  {
    var prod :- p.MatMul(q);
    r := if prod.Scalar? then Ok(Raw(Num(prod.n))) else Ok(Obj(prod.t));
  }

  /** `backward` results: two gradients, or the cached input of a constant gate. */
  datatype Grad = Pair(dx: Item, dy: Item) | Single(cached: Option<Item>)

  /** `Gate` itself and its three subclasses. */
  datatype Kind = Plain | Multiply | Add | Constant

  /** The number of positional arguments each subclass's `forward` takes. */
  function Arity(k: Kind): nat {
    if k == Constant then 1 else 2
  }

  class Gate {
    const kind: Kind
    const nInputs: int
    var parents: seq<Gate>
    /** The cached inputs of the last `forward`, `None` until then. */
    var x: Option<Item>
    var y: Option<Item>

    /** `Gate(n_inputs)`: a gate with no forward or backward rule. */
    constructor (n: int)
      ensures kind == Plain && nInputs == n && parents == [] && x == None && y == None
    {
      kind := Plain;
      nInputs := n;
      parents := [];
      x := None;
      y := None;
    }

    /** `MultiplyGate()`: two inputs. */
    constructor MultiplyGate()
      ensures kind == Multiply && nInputs == 2 && parents == [] && x == None && y == None
    {
      kind := Multiply;
      nInputs := 2;
      parents := [];
      x := None;
      y := None;
    }

    /** `AddGate()`: two inputs. */
    constructor AddGate()
      ensures kind == Add && nInputs == 2 && parents == [] && x == None && y == None
    {
      kind := Add;
      nInputs := 2;
      parents := [];
      x := None;
      y := None;
    }

    /** `ConstantGate()`: one input. */
    constructor ConstantGate()
      ensures kind == Constant && nInputs == 1 && parents == [] && x == None && y == None
    {
      kind := Constant;
      nInputs := 1;
      parents := [];
      x := None;
      y := None;
    }

    /** `set_parent`: append to the parent list. */
    method SetParent(p: Gate)
      modifies this`parents
      ensures parents == old(parents) + [p]
    {
      parents := parents + [p];
    }

    /**
     * `forward(*args)` as each subclass defines it. `Gate` itself has no
     * `forward`; a wrong number of arguments raises TypeError. A constant
     * gate caches its input and insists on a tensor; an add gate returns
     * `x + y`; a multiply gate caches both inputs and returns `x @ y`.
     */
    method Forward(args: seq<Item>) returns (r: Result<Item>)
      requires forall i :: 0 <= i < |args| && args[i].Obj? ==> args[i].t.Wellformed()
      modifies this`x, this`y, Objs(args)`iterCount
      ensures kind == Plain ==> r == Err(AttributeError)
      ensures kind != Plain && |args| != Arity(kind) ==> r == Err(TypeError)
      ensures kind == Plain || kind == Add || |args| != Arity(kind) ==> x == old(x) && y == old(y)
      ensures kind == Constant && |args| == 1 ==>
                x == Some(args[0]) && y == old(y) && r == (if args[0].Obj? then Ok(args[0]) else Err(AssertionError))
      ensures kind == Add && |args| == 2 ==> PlusSpec(args[0], args[1], r)
      ensures kind == Multiply && |args| == 2 ==>
                x == Some(args[0]) && y == Some(args[1]) &&
                AtSpec(args[0], args[1], if args[1].Obj? then old(args[1].t.iterCount) else -1, r)
      // only the right operand of `@` is iterated
      ensures forall i :: 0 <= i < |args| && args[i].Obj? ==>
                args[i].t.iterCount == old(args[i].t.iterCount) ||
                (kind == Multiply && |args| == 2 && args[1] == Obj(args[i].t))
      ensures forall i :: 0 <= i < |args| && args[i].Obj? ==> args[i].t.Wellformed()
      ensures r.Ok? && r.value.Obj? ==> r.value.t.Wellformed() && (fresh(r.value.t) || r.value in args)
      // only a constant gate hands on a tensor it was given; the others build one
      ensures r.Ok? && r.value.Obj? && kind != Constant ==> fresh(r.value.t) && r.value.t.AtRest()
    {
      if kind == Plain {
        return Err(AttributeError);
      }
      if |args| != Arity(kind) {
        return Err(TypeError);
      }
      match kind
      case Constant =>
        x := Some(args[0]);
        if args[0].Raw? {
          return Err(AssertionError);
        }
        r := Ok(args[0]);
      case Add =>
        r := PlusItems(args[0], args[1]);
      case Multiply =>
        assert Objs([args[1]]) <= Objs(args);
        r := ForwardMultiply(args[0], args[1]);
    }

    /** `MultiplyGate.forward(x, y)`: cache both inputs, then `x @ y`. */
    method ForwardMultiply(a: Item, b: Item) returns (r: Result<Item>)
      requires a.Obj? ==> a.t.Wellformed()
      requires b.Obj? ==> b.t.Wellformed()
      modifies this`x, this`y, Objs([b])`iterCount
      ensures x == Some(a) && y == Some(b)
      ensures AtSpec(a, b, if b.Obj? then old(b.t.iterCount) else -1, r)
      ensures b.Obj? ==> b.t.Wellformed()
      ensures r.Ok? && r.value.Obj? ==> fresh(r.value.t)
    {
      x := Some(a);
      y := Some(b);
      r := AtItems(a, b);
    }

    /**
     * `backward(dz)`: a multiply gate returns `(dz * y, dz * x)` from its
     * cached inputs, an add gate `(dz, dz)`, a constant gate its cached
     * input whatever `dz` is; `Gate` itself has no `backward`.
     */
    method Backward(dz: Item) returns (r: Result<Grad>)
      requires dz.Obj? ==> dz.t.Wellformed()
      requires x.Some? && x.value.Obj? ==> x.value.t.Wellformed()
      requires y.Some? && y.value.Obj? ==> y.value.t.Wellformed()
      ensures kind == Plain ==> r == Err(AttributeError)
      ensures kind == Add ==> r == Ok(Pair(dz, dz))
      ensures kind == Constant ==> r == Ok(Single(x))
      ensures kind == Multiply && r.Ok? ==>
                r.value.Pair? && TimesSpec(dz, y, Ok(r.value.dx)) && TimesSpec(dz, x, Ok(r.value.dy))
      // `dz * self.y` is evaluated first, so its error is the one raised
      ensures kind == Multiply ==> forall e :: TimesSpec(dz, y, Err(e)) ==> r == Err(e)
      ensures kind == Multiply && r.Err? ==> TimesSpec(dz, y, Err(r.error)) || TimesSpec(dz, x, Err(r.error))
    {
      match kind
      case Plain =>
        r := Err(AttributeError);
      case Add =>
        r := Ok(Pair(dz, dz));
      case Constant =>
        r := Ok(Single(x));
      case Multiply =>
        var dx :- TimesItems(dz, y);
        var dy :- TimesItems(dz, x);
        r := Ok(Pair(dx, dy));
    }
  }

  /** How many entries of `s` are members of `inputs`. */
  function CountIn(s: seq<Gate>, inputs: seq<Gate>): nat {
    if |s| == 0 then 0
    else CountIn(s[..|s| - 1], inputs) + (if s[|s| - 1] in inputs then 1 else 0)
  }

  /** Without repetitions, that is the number of members of `inputs` in `s`. */
  lemma {:induction false} CountInElems(s: seq<Gate>, inputs: seq<Gate>)
    requires Distinct(s)
    ensures CountIn(s, inputs) == |Elems(s) * Elems(inputs)|
  {
    if |s| > 0 {
      var front, last := s[..|s| - 1], s[|s| - 1];
      CountInElems(front, inputs);
      ElemsSnoc(s);
      IntersectAdd(Elems(front), Elems(inputs), last);
    }
  }

  lemma ElemsAppend<T>(s: seq<T>, x: T)
    ensures Elems(s + [x]) == Elems(s) + {x}
  {
  }

  /** Splitting off the last element of a sequence without repetitions. */
  lemma ElemsSnoc<T>(s: seq<T>)
    requires |s| > 0 && Distinct(s)
    ensures Elems(s) == Elems(s[..|s| - 1]) + {s[|s| - 1]}
    ensures s[|s| - 1] !in Elems(s[..|s| - 1])
  {
    assert s == s[..|s| - 1] + [s[|s| - 1]];
  }

  /** Adding a new element `x` to `a` adds it to `a * b` exactly when `x` is in `b`. */
  lemma IntersectAdd<T>(a: set<T>, b: set<T>, x: T)
    requires x !in a
    ensures |(a + {x}) * b| == |a * b| + (if x in b then 1 else 0)
  {
    if x in b {
      assert (a + {x}) * b == a * b + {x};
    } else {
      assert (a + {x}) * b == a * b;
    }
  }

  /** When `s` holds every member of `inputs` once, it counts each of them. */
  lemma CountInCovers(s: seq<Gate>, inputs: seq<Gate>)
    requires Distinct(s) && forall g :: g in inputs ==> g in s
    ensures CountIn(s, inputs) == |Elems(inputs)|
  {
    CountInElems(s, inputs);
    assert Elems(s) * Elems(inputs) == Elems(inputs);
  }

  // ---------------------------------------------------------------------------
  // The graph

  class ComputationalGraph {
    var inputGates: seq<Gate>
    /** The successor set of each vertex. */
    var graph: map<Gate, set<Gate>>
    /** The keys of `graph` in insertion order, the order a Python dict iterates in. */
    var vertices: seq<Gate>

    /** Input gates and every successor are vertices; `vertices` lists the keys once each. */
    ghost predicate Valid()
      reads this
    {
      (forall g :: g in inputGates ==> g in graph) &&
      (forall u, w :: u in graph && w in graph[u] ==> w in graph) &&
      Distinct(vertices) && graph.Keys == Elems(vertices)
    }

    /** `__init__`: every input gate becomes a vertex without successors. */
    constructor (inputs: seq<Gate>)
      ensures inputGates == inputs && Valid()
      ensures graph.Keys == Elems(inputs) && forall g :: g in graph ==> graph[g] == {}
      ensures vertices == Dedup(inputs)
    {
      inputGates := inputs;
      graph := map[];
      vertices := [];
      new;
      for k := 0 to |inputs|
        invariant inputGates == inputs
        invariant graph.Keys == Elems(inputs[..k]) && forall g :: g in graph ==> graph[g] == {}
        invariant Distinct(vertices) && graph.Keys == Elems(vertices)
        invariant vertices == Dedup(inputs[..k])
      {
        AddVertex(inputs[k]);
        DedupStep(inputs, k);
      }
      assert inputs[..|inputs|] == inputs;
    }

    /** `add_vertex`: `u` gets the empty successor set, replacing any it had. */
    method AddVertex(u: Gate)
      modifies this`graph, this`vertices
      ensures graph == old(graph)[u := {}]
      ensures vertices == if u in old(graph) then old(vertices) else old(vertices) + [u]
      ensures old(Distinct(vertices) && graph.Keys == Elems(vertices)) ==>
                Distinct(vertices) && graph.Keys == Elems(vertices)
      ensures old(Valid()) ==> Valid()
    {
      if u !in graph {
        vertices := vertices + [u];
      }
      graph := graph[u := {}];
    }

    /** `add_edge`: add `v` to the successors of `u`, then reset `v`'s successors. */
    method AddEdge(u: Gate, v: Gate)
      modifies this`graph, this`vertices
      ensures graph == old(graph)[u := (if u in old(graph) then old(graph)[u] else {}) + {v}][v := {}]
      ensures old(Valid()) ==> Valid()
      ensures u != v ==> v in graph[u]
      ensures graph[v] == {}
      // `setdefault` inserts `u` if new, then `add_vertex` inserts `v` if still new
      ensures vertices == (var w := if u in old(graph) then old(vertices) else old(vertices) + [u];
                           if v in old(graph) || v == u then w else w + [v])
    {
      ghost var wasValid := Valid();
      if u !in graph {
        AddVertex(u);
      }
      assert graph == old(graph)[u := if u in old(graph) then old(graph)[u] else {}];
      assert wasValid ==> Valid();
      ghost var before := graph;
      var linked := graph[u := graph[u] + {v}];
      assert linked.Keys == graph.Keys;
      graph := linked;
      AddVertex(v);
      if wasValid {
        LinkClosed(before, u, v);
      }
    }

    /** Linking `u` to `v` and resetting `v` keeps every successor a vertex. */
    static lemma LinkClosed(g: map<Gate, set<Gate>>, u: Gate, v: Gate)
      requires u in g && forall x, w :: x in g && w in g[x] ==> w in g
      ensures var h := g[u := g[u] + {v}][v := {}];
              forall x, w :: x in h && w in h[x] ==> w in h
    {
    }

    /** `__len__`: the number of vertices. */
    function Len(): (r: nat)
      reads this
      requires Valid()
      ensures r == |vertices|
    {
      DistinctCard(vertices);
      assert Elems(vertices) == graph.Keys;
      |graph.Keys|
    }

    // -------------------------------------------------------------------------
    // Paths

    /** The vertices at the end of a path of exactly `n` edges starting at `v`. */
    ghost function Steps(v: Gate, n: nat): set<Gate>
      reads this
    {
      if n == 0 then {v}
      else set u, w | u in Steps(v, n - 1) && u in graph && w in graph[u] :: w
    }

    /** No vertex is at the end of a non-empty path from itself. */
    ghost predicate Acyclic()
      reads this
    {
      forall v, n: nat :: v in graph && n >= 1 ==> v !in Steps(v, n)
    }

    /** `v` is at the end of a path from an input gate. */
    ghost predicate Reachable(v: Gate)
      reads this
    {
      exists g, n: nat :: g in inputGates && v in Steps(g, n)
    }

    lemma ReachInput(g: Gate)
      requires g in inputGates
      ensures Reachable(g)
    {
      assert g in Steps(g, 0);
    }

    lemma ReachEdge(u: Gate, w: Gate)
      requires Reachable(u) && u in graph && w in graph[u]
      ensures Reachable(w)
    {
      var g, n: nat :| g in inputGates && u in Steps(g, n);
      assert w in Steps(g, n + 1);
    }

    /** A set holding the input gates and closed under successors holds every reachable vertex. */
    lemma ReachClosed(s: set<Gate>)
      requires forall g :: g in inputGates ==> g in s
      requires forall u, w :: u in s && u in graph && w in graph[u] ==> w in s
      ensures forall v :: Reachable(v) ==> v in s
    {
      forall v | Reachable(v)
        ensures v in s
      {
        var g, n: nat :| g in inputGates && v in Steps(g, n);
        StepsInside(s, g, n);
      }
    }

    lemma {:induction false} StepsInside(s: set<Gate>, g: Gate, n: nat)
      requires forall u, w :: u in s && u in graph && w in graph[u] ==> w in s
      requires g in s
      ensures Steps(g, n) <= s
    {
      if n > 0 {
        StepsInside(s, g, n - 1);
      }
    }

    /** Following the stack from position `i` reaches position `k` in `k - i` steps. */
    lemma {:induction false} StackSteps(stack: seq<Gate>, i: int, k: int)
      requires Chain(stack)
      requires 0 <= i <= k < |stack|
      ensures stack[k] in Steps(stack[i], k - i)
      decreases k - i
    {
      if k > i {
        StackSteps(stack, i, k - 1);
        assert stack[k - 1] in graph && stack[k] in graph[stack[k - 1]];
      }
    }

    /** The stack of the sort is a path, so an edge back into it closes a cycle. */
    lemma StackCycle(stack: seq<Gate>, i: int, j: int)
      requires Chain(stack)
      requires 0 <= i <= j < |stack| && stack[j] in graph && stack[i] in graph[stack[j]]
      ensures !Acyclic()
    {
      StackSteps(stack, i, j);
      assert stack[i] in Steps(stack[i], j - i + 1);
    }

    // -------------------------------------------------------------------------
    // The topological sort

    /** The queue holds `w` on behalf of the stack entry at position `i`. */
    ghost predicate Pending(q: seq<Gate>, own: seq<int>, i: int, w: Gate)
      requires |own| == |q|
    {
      exists k :: 0 <= k < |q| && own[k] == i && q[k] == w
    }

    /** Every listed vertex is a vertex of the graph. */
    ghost predicate AllIn(s: seq<Gate>)
      reads this
    {
      forall i :: 0 <= i < |s| ==> s[i] in graph
    }

    /** Every listed vertex is reachable from an input gate. */
    ghost predicate AllReachable(s: seq<Gate>)
      reads this
    {
      forall i :: 0 <= i < |s| ==> Reachable(s[i])
    }

    /** Each entry is a successor of the one before it. */
    ghost predicate Chain(s: seq<Gate>)
      reads this
    {
      forall i :: 0 <= i < |s| - 1 ==> s[i] in graph && s[i + 1] in graph[s[i]]
    }

    /**
     * `own[k]` is the stack position of the vertex whose successors put
     * `q[k]` on the queue, or -1 for an input gate; owners are at most `top`
     * and never decrease along the queue.
     */
    ghost predicate Owned(stack: seq<Gate>, q: seq<Gate>, own: seq<int>, top: int)
      reads this
    {
      |own| == |q| && top < |stack| &&
      (forall k :: 0 <= k < |q| ==> -1 <= own[k] <= top) &&
      (forall k, l :: 0 <= k < l < |q| ==> own[k] <= own[l]) &&
      (forall k :: 0 <= k < |q| && own[k] >= 0 ==> stack[own[k]] in graph && q[k] in graph[stack[own[k]]])
    }

    /** Each successor of an open vertex is seen, in `extra`, or queued on that vertex's behalf. */
    ghost predicate Open(stack: seq<Gate>, order: seq<Gate>, q: seq<Gate>, own: seq<int>, extra: set<Gate>)
      reads this
      requires |own| == |q|
    {
      forall i, w :: 0 <= i < |stack| && stack[i] in graph && w in graph[stack[i]] ==>
        w in stack || w in order || w in extra || Pending(q, own, i, w)
    }

    /** Each successor of a finished vertex is seen. */
    ghost predicate Finished(stack: seq<Gate>, order: seq<Gate>)
      reads this
    {
      forall a, w :: 0 <= a < |order| && order[a] in graph && w in graph[order[a]] ==> w in stack || w in order
    }

    /** Without cycles, each vertex finishes after all its successors. */
    ghost predicate PostOrder(order: seq<Gate>)
      reads this
    {
      Acyclic() ==> forall a, w :: 0 <= a < |order| && order[a] in graph && w in graph[order[a]] ==> w in order[..a]
    }

    /** Every edge between two entries of `r` points forward. */
    ghost predicate EdgesForward(r: seq<Gate>)
      reads this
    {
      forall a, b :: 0 <= a < |r| && 0 <= b < |r| && r[a] in graph && r[b] in graph[r[a]] ==> a < b
    }

    /** Every input gate is seen, queued, or in `extra`. */
    ghost predicate InputsSeen(stack: seq<Gate>, order: seq<Gate>, q: seq<Gate>, extra: set<Gate>)
      reads this
    {
      forall g :: g in inputGates ==> g in stack || g in order || g in q || g in extra
    }

    /**
     * The state of `topological_sort` between iterations: `stack` is a path
     * of open vertices and `order` holds the finished ones. Owners never
     * decrease along the queue, so a vertex leaves the stack only once the
     * queue holds nothing on its behalf.
     */
    ghost predicate SortInv(stack: seq<Gate>, order: seq<Gate>, q: seq<Gate>, own: seq<int>)
      reads this
    {
      Valid() && Distinct(stack + order) && AllIn(stack) && AllIn(order) && AllIn(q) && Chain(stack) &&
      Owned(stack, q, own, |stack| - 1) && Open(stack, order, q, own, {}) &&
      Finished(stack, order) && InputsSeen(stack, order, q, {}) && PostOrder(order)
    }

    /**
     * The state inside the inner loop: `v`, taken from the queue on behalf of
     * stack position `o`, is seen but not yet on the stack.
     */
    ghost predicate MidInv(stack: seq<Gate>, order: seq<Gate>, q: seq<Gate>, own: seq<int>, v: Gate, o: int)
      reads this
    {
      Valid() && Distinct(stack + order) && v !in stack && v !in order && v in graph &&
      AllIn(stack) && AllIn(order) && AllIn(q) && Chain(stack) &&
      -1 <= o && Owned(stack, q, own, o) && (o >= 0 ==> v in graph[stack[o]]) &&
      Open(stack, order, q, own, {v}) && Finished(stack, order) && InputsSeen(stack, order, q, {v}) &&
      PostOrder(order)
    }

    lemma SortStart()
      requires Valid()
      ensures SortInv([], [], inputGates, seq(|inputGates|, _ => -1))
      ensures AllReachable(inputGates)
    {
      forall k | 0 <= k < |inputGates|
        ensures Reachable(inputGates[k])
      {
        ReachInput(inputGates[k]);
      }
    }

    /** Popping a vertex already seen. */
    lemma SortSkip(stack: seq<Gate>, order: seq<Gate>, q: seq<Gate>, own: seq<int>)
      requires SortInv(stack, order, q, own) && |q| > 0
      requires q[|q| - 1] in stack || q[|q| - 1] in order
      ensures SortInv(stack, order, q[..|q| - 1], own[..|own| - 1])
    {
      var q', own' := q[..|q| - 1], own[..|own| - 1];
      forall i, w | 0 <= i < |stack| && stack[i] in graph && w in graph[stack[i]]
        ensures w in stack || w in order || Pending(q', own', i, w)
      {
        if !(w in stack || w in order) {
          var k :| 0 <= k < |q| && own[k] == i && q[k] == w;
          assert k < |q'| && own'[k] == i && q'[k] == w;
        }
      }
      assert InputsSeen(stack, order, q', {}) by {
        forall g | g in inputGates
          ensures g in stack || g in order || g in q'
        {
          if g in q && g !in q' {
            assert g == q[|q| - 1];
          }
        }
      }
    }

    /** Popping a vertex not seen before. */
    lemma SortEnter(stack: seq<Gate>, order: seq<Gate>, q: seq<Gate>, own: seq<int>)
      requires SortInv(stack, order, q, own) && |q| > 0
      requires q[|q| - 1] !in stack && q[|q| - 1] !in order
      ensures MidInv(stack, order, q[..|q| - 1], own[..|own| - 1], q[|q| - 1], own[|own| - 1])
    {
      var q', own', v := q[..|q| - 1], own[..|own| - 1], q[|q| - 1];
      forall i, w | 0 <= i < |stack| && stack[i] in graph && w in graph[stack[i]]
        ensures w in stack || w in order || w in {v} || Pending(q', own', i, w)
      {
        if !(w in stack || w in order || w == v) {
          var k :| 0 <= k < |q| && own[k] == i && q[k] == w;
          assert k < |q'| && own'[k] == i && q'[k] == w;
        }
      }
      assert InputsSeen(stack, order, q', {v}) by {
        forall g | g in inputGates
          ensures g in stack || g in order || g in q' || g in {v}
        {
          if g in q && g !in q' {
            assert g == q[|q| - 1];
          }
        }
      }
    }

    /** Removing the top of a stack and appending it to `order` keeps every element once. */
    lemma MoveDistinct(stack: seq<Gate>, order: seq<Gate>)
      requires Distinct(stack + order) && |stack| > 0
      ensures Distinct(stack[..|stack| - 1] + (order + [stack[|stack| - 1]]))
    {
      var j := |stack| - 1;
      var s, t := stack + order, stack[..j] + (order + [stack[j]]);
      forall a, b | 0 <= a < b < |t|
        ensures t[a] != t[b]
      {
        var ia := if a < j then a else if a == |t| - 1 then j else a + 1;
        var ib := if b < j then b else if b == |t| - 1 then j else b + 1;
        assert t[a] == s[ia] && t[b] == s[ib] && ia != ib;
      }
    }

    /** Moving the top of the stack, which is not a predecessor of `v`, to `order`. */
    lemma SortFinish(stack: seq<Gate>, order: seq<Gate>, q: seq<Gate>, own: seq<int>, v: Gate, o: int)
      requires MidInv(stack, order, q, own, v, o) && |stack| > 0
      requires v !in graph[stack[|stack| - 1]]
      ensures MidInv(stack[..|stack| - 1], order + [stack[|stack| - 1]], q, own, v, o)
    {
      var j := |stack| - 1;
      var u := stack[j];
      var stack', order' := stack[..j], order + [u];
      assert o < j;
      MoveDistinct(stack, order);
      // every successor of `u` is already seen, and with no cycle it is finished
      forall w | w in graph[u]
        ensures w in stack' || w in order'
        ensures Acyclic() ==> w in order
      {
        assert !Pending(q, own, j, w) by {
          forall k | 0 <= k < |q|
            ensures own[k] != j
          {
          }
        }
        assert w in stack || w in order;
        if Acyclic() && w in stack {
          var i :| 0 <= i < |stack| && stack[i] == w;
          StackCycle(stack, i, j);
        }
      }
      assert Open(stack', order', q, own, {v}) by {
        forall i, w | 0 <= i < |stack'| && stack'[i] in graph && w in graph[stack'[i]]
          ensures w in stack' || w in order' || w in {v} || Pending(q, own, i, w)
        {
          assert stack'[i] == stack[i];
        }
      }
      assert Finished(stack', order');
      assert PostOrder(order') by {
        if Acyclic() {
          forall a, w | 0 <= a < |order'| && order'[a] in graph && w in graph[order'[a]]
            ensures w in order'[..a]
          {
            if a < |order| {
              assert order'[..a] == order[..a];
            } else {
              assert order'[..a] == order;
            }
          }
        }
      }
      assert Owned(stack', q, own, o) by {
        forall k | 0 <= k < |q| && own[k] >= 0
          ensures stack'[own[k]] in graph && q[k] in graph[stack'[own[k]]]
        {
          assert stack'[own[k]] == stack[own[k]];
        }
      }
      assert Chain(stack') by {
        forall i | 0 <= i < |stack'| - 1
          ensures stack'[i] in graph && stack'[i + 1] in graph[stack'[i]]
        {
          assert stack'[i] == stack[i] && stack'[i + 1] == stack[i + 1];
        }
      }
    }

    /** Pushing `v` on a stack it is not on keeps every element once. */
    lemma PushDistinct(stack: seq<Gate>, order: seq<Gate>, v: Gate)
      requires Distinct(stack + order) && v !in stack && v !in order
      ensures Distinct(stack + [v] + order)
    {
      var s, t := stack + order, stack + [v] + order;
      forall a, b | 0 <= a < b < |t|
        ensures t[a] != t[b]
      {
        if a != |stack| && b != |stack| {
          var ia := if a < |stack| then a else a - 1;
          var ib := if b < |stack| then b else b - 1;
          assert t[a] == s[ia] && t[b] == s[ib] && ia != ib;
        }
      }
    }

    /** Pushing `v` on the stack and its successors, in some order, on the queue. */
    lemma SortPush(stack: seq<Gate>, order: seq<Gate>, q: seq<Gate>, own: seq<int>, v: Gate, o: int, succ: seq<Gate>)
      requires MidInv(stack, order, q, own, v, o)
      requires |stack| == 0 || v in graph[stack[|stack| - 1]]
      requires Elems(succ) == graph[v]
      ensures SortInv(stack + [v], order, q + succ, own + seq(|succ|, _ => |stack|))
    {
      var stack', q', own' := stack + [v], q + succ, own + seq(|succ|, _ => |stack|);
      PushDistinct(stack, order, v);
      assert AllIn(q') by {
        forall k | |q| <= k < |q'|
          ensures q'[k] in graph
        {
          assert q'[k] in Elems(succ);
        }
      }
      assert Chain(stack') by {
        forall i | 0 <= i < |stack'| - 1
          ensures stack'[i] in graph && stack'[i + 1] in graph[stack'[i]]
        {
          if i + 1 < |stack| {
            assert stack'[i] == stack[i] && stack'[i + 1] == stack[i + 1];
          }
        }
      }
      assert Owned(stack', q', own', |stack'| - 1) by {
        forall k | 0 <= k < |q'| && own'[k] >= 0
          ensures stack'[own'[k]] in graph && q'[k] in graph[stack'[own'[k]]]
        {
          if k >= |q| {
            assert q'[k] in Elems(succ);
          } else {
            assert stack'[own'[k]] == stack[own[k]];
          }
        }
      }
      assert Open(stack', order, q', own', {}) by {
        forall i, w | 0 <= i < |stack'| && stack'[i] in graph && w in graph[stack'[i]]
          ensures w in stack' || w in order || Pending(q', own', i, w)
        {
          if i == |stack| {
            assert w in Elems(succ);
            var k :| 0 <= k < |succ| && succ[k] == w;
            assert own'[|q| + k] == i && q'[|q| + k] == w;
          } else if !(w in stack' || w in order) {
            assert stack'[i] == stack[i];
            var k :| 0 <= k < |q| && own[k] == i && q[k] == w;
            assert own'[k] == i && q'[k] == w;
          }
        }
      }
    }

    /** The successors of a reachable vertex, queued, are reachable. */
    lemma ReachPush(q: seq<Gate>, v: Gate, succ: seq<Gate>)
      requires AllReachable(q) && Reachable(v) && v in graph && Elems(succ) == graph[v]
      ensures AllReachable(q + succ)
    {
      forall k | |q| <= k < |q + succ|
        ensures Reachable((q + succ)[k])
      {
        assert (q + succ)[k] in Elems(succ);
        ReachEdge(v, (q + succ)[k]);
      }
    }

    /** `stack + reverse(order)` lists the elements of `stack + order`, each once. */
    lemma ReverseAppend(stack: seq<Gate>, order: seq<Gate>)
      requires Distinct(stack + order)
      ensures Distinct(stack + Reverse(order))
      ensures Elems(stack + Reverse(order)) == Elems(stack) + Elems(order)
    {
      var r, s := stack + Reverse(order), stack + order;
      var n, m := |stack|, |order|;
      forall c | 0 <= c < |r|
        ensures r[c] == s[if c < n then c else n + m - 1 - (c - n)]
      {
      }
      forall a, b | 0 <= a < b < |r|
        ensures r[a] != r[b]
      {
        var ia := if a < n then a else n + m - 1 - (a - n);
        var ib := if b < n then b else n + m - 1 - (b - n);
        assert ia != ib;
      }
      forall x | x in order
        ensures x in r
      {
        var a :| 0 <= a < m && order[a] == x;
        assert r[n + m - 1 - a] == x;
      }
    }

    /** With the queue empty, everything reachable has been seen. */
    lemma SortComplete(stack: seq<Gate>, order: seq<Gate>)
      requires SortInv(stack, order, [], [])
      ensures forall v :: Reachable(v) ==> v in stack || v in order
    {
      var seen := Elems(stack) + Elems(order);
      forall u, w | u in seen && u in graph && w in graph[u]
        ensures w in seen
      {
        if u in stack {
          var i :| 0 <= i < |stack| && stack[i] == u;
          if Pending([], [], i, w) {
            assert false;
          }
        } else {
          var a :| 0 <= a < |order| && order[a] == u;
        }
      }
      ReachClosed(seen);
    }

    /** With the queue empty and no cycle, every edge points forward in `stack + reverse(order)`. */
    lemma SortForward(stack: seq<Gate>, order: seq<Gate>)
      requires SortInv(stack, order, [], []) && Acyclic()
      ensures EdgesForward(stack + Reverse(order))
    {
      var r := stack + Reverse(order);
      ReverseAppend(stack, order);
      forall a, b | 0 <= a < |r| && 0 <= b < |r| && r[a] in graph && r[b] in graph[r[a]]
        ensures a < b
      {
        ForwardEdge(stack, order, a, b);
      }
    }

    /** One edge of `stack + reverse(order)`: along the stack chain, or from a finished vertex. */
    lemma ForwardEdge(stack: seq<Gate>, order: seq<Gate>, a: int, b: int)
      requires Chain(stack) && PostOrder(order) && Acyclic() && Distinct(stack + Reverse(order))
      requires var r := stack + Reverse(order);
               0 <= a < |r| && 0 <= b < |r| && r[a] in graph && r[b] in graph[r[a]]
      ensures a < b
    {
      var r := stack + Reverse(order);
      if a < |stack| && b < |stack| {
        if b <= a {
          StackCycle(stack, b, a);
        }
      } else if a >= |stack| {
        OrderEdge(stack, order, a, b);
      }
    }

    /** An edge from a finished vertex leads to one finished earlier, placed later in `stack + reverse(order)`. */
    lemma OrderEdge(stack: seq<Gate>, order: seq<Gate>, a: int, b: int)
      requires PostOrder(order) && Acyclic() && Distinct(stack + Reverse(order))
      requires var r := stack + Reverse(order);
               |stack| <= a < |r| && 0 <= b < |r| && r[a] in graph && r[b] in graph[r[a]]
      ensures a < b
    {
      var r := stack + Reverse(order);
      var n, m := |stack|, |order|;
      var ia := m - 1 - (a - n);
      assert r[a] == order[ia];
      assert r[b] in order[..ia];
      var ib :| 0 <= ib < ia && order[ib] == r[b];
      assert r[n + m - 1 - ib] == r[b];
    }

    /** The inner loop of `topological_sort`: finish the vertices on top of the stack that are not predecessors of `v`. */
    method Unwind(stack: seq<Gate>, order: seq<Gate>, ghost q: seq<Gate>, ghost own: seq<int>, v: Gate, ghost o: int)
      returns (stack': seq<Gate>, order': seq<Gate>)
      requires MidInv(stack, order, q, own, v, o)
      ensures MidInv(stack', order', q, own, v, o)
      ensures |stack'| == 0 || v in graph[stack'[|stack'| - 1]]
      ensures Elems(stack') + Elems(order') == Elems(stack) + Elems(order)
    {
      stack', order' := stack, order;
      while |stack'| > 0 && v !in graph[stack'[|stack'| - 1]]
        invariant MidInv(stack', order', q, own, v, o)
        invariant Elems(stack') + Elems(order') == Elems(stack) + Elems(order)
        decreases |stack'|
      {
        SortFinish(stack', order', q, own, v, o);
        var u := stack'[|stack'| - 1];
        assert stack' == stack'[..|stack'| - 1] + [u];
        order' := order' + [u];
        stack' := stack'[..|stack'| - 1];
      }
    }

    /** The loop state of `topological_sort`: `seen` is what is on the stack or in `order`, all of it reachable. */
    ghost predicate SortState(seen: set<Gate>, stack: seq<Gate>, order: seq<Gate>, q: seq<Gate>, own: seq<int>)
      reads this
    {
      SortInv(stack, order, q, own) &&
      seen == Elems(stack) + Elems(order) && seen <= graph.Keys &&
      (forall v :: v in seen ==> Reachable(v)) && AllReachable(q)
    }

    /** Popping a vertex already seen keeps the loop state. */
    lemma SkipState(seen: set<Gate>, stack: seq<Gate>, order: seq<Gate>, q: seq<Gate>, own: seq<int>)
      requires SortState(seen, stack, order, q, own) && |q| > 0 && q[|q| - 1] in seen
      ensures SortState(seen, stack, order, q[..|q| - 1], own[..|own| - 1])
    {
      SortSkip(stack, order, q, own);
    }

    /** With the queue empty, `stack + reverse(order)` is the result `topological_sort` promises. */
    lemma SortEnd(seen: set<Gate>, stack: seq<Gate>, order: seq<Gate>, q: seq<Gate>, own: seq<int>)
      requires SortState(seen, stack, order, q, own) && |q| == 0
      ensures Distinct(stack + Reverse(order))
      ensures forall v :: v in stack + Reverse(order) ==> v in graph
      ensures forall v :: v in stack + Reverse(order) <==> Reachable(v)
      ensures Acyclic() ==> EdgesForward(stack + Reverse(order))
    {
      assert q == [] && own == [];
      ReverseAppend(stack, order);
      SortComplete(stack, order);
      if Acyclic() {
        SortForward(stack, order);
      }
      var r := stack + Reverse(order);
      assert Elems(r) == seen;
      forall v
        ensures v in r <==> Reachable(v)
      {
        if Reachable(v) {
          assert v in Elems(stack) + Elems(order);
        }
        if v in r {
          assert v in Elems(r);
        }
      }
    }

    /** Seeing more of a finite set leaves less of it unseen. */
    lemma MoreSeen(a: set<Gate>, b: set<Gate>, all: set<Gate>)
      requires a < b <= all
      ensures |all - b| < |all - a|
    {
      assert b != a;
      var x :| x in b && x !in a;
      var d := (all - a) - (all - b);
      assert x in d;
      assert all - a == (all - b) + d;
    }

    /** Taking an unseen vertex `v` from the queue. */
    lemma EnterState(seen: set<Gate>, stack: seq<Gate>, order: seq<Gate>, q: seq<Gate>, own: seq<int>)
      requires SortState(seen, stack, order, q, own) && |q| > 0 && q[|q| - 1] !in seen
      ensures MidInv(stack, order, q[..|q| - 1], own[..|own| - 1], q[|q| - 1], own[|own| - 1])
      ensures Reachable(q[|q| - 1]) && AllReachable(q[..|q| - 1])
    {
      SortEnter(stack, order, q, own);
    }

    /** Pushing `v`, once the stack is unwound, and queueing its successors. */
    lemma PushState(seen: set<Gate>, stack: seq<Gate>, order: seq<Gate>, q: seq<Gate>, own: seq<int>, v: Gate, o: int, succ: seq<Gate>)
      requires MidInv(stack, order, q, own, v, o)
      requires |stack| == 0 || v in graph[stack[|stack| - 1]]
      requires Elems(succ) == graph[v]
      requires seen == Elems(stack) + Elems(order) && seen <= graph.Keys
      requires forall u :: u in seen ==> Reachable(u)
      requires Reachable(v) && AllReachable(q)
      ensures SortState(seen + {v}, stack + [v], order, q + succ, own + seq(|succ|, _ => |stack|))
    {
      SortPush(stack, order, q, own, v, o, succ);
      ReachPush(q, v, succ);
      assert Elems(stack + [v]) == Elems(stack) + {v};
    }

    /** One step of `topological_sort` on a vertex not seen before. */
    method Visit(seen: set<Gate>, stack: seq<Gate>, order: seq<Gate>, q: seq<Gate>, ghost own: seq<int>)
      returns (seen': set<Gate>, stack': seq<Gate>, order': seq<Gate>, q': seq<Gate>, ghost own': seq<int>)
      requires SortState(seen, stack, order, q, own) && |q| > 0 && q[|q| - 1] !in seen
      ensures SortState(seen', stack', order', q', own')
      ensures seen < seen' <= graph.Keys
    {
      var v := q[|q| - 1];
      ghost var o := own[|own| - 1];
      q', own' := q[..|q| - 1], own[..|own| - 1];
      EnterState(seen, stack, order, q, own);
      var succ := Enumerate(graph[v]);
      stack', order' := Unwind(stack, order, q', own', v, o);
      PushState(seen, stack', order', q', own', v, o, succ);
      seen' := seen + {v};
      q' := q' + succ;
      own' := own' + seq(|succ|, _ => |stack'|);
      stack' := stack' + [v];
    }

    /**
     * One pass of the `while queue` loop: pop the last queued vertex and
     * skip it if seen, or visit it. Either fewer vertices stay unseen or
     * the queue is shorter.
     */
    method SortStep(seen: set<Gate>, stack: seq<Gate>, order: seq<Gate>, q: seq<Gate>, ghost own: seq<int>)
      returns (seen': set<Gate>, stack': seq<Gate>, order': seq<Gate>, q': seq<Gate>, ghost own': seq<int>)
      requires SortState(seen, stack, order, q, own) && |q| > 0
      ensures SortState(seen', stack', order', q', own')
      ensures |graph.Keys - seen'| < |graph.Keys - seen| || (seen' == seen && |q'| < |q|)
    {
      if q[|q| - 1] in seen {
        SkipState(seen, stack, order, q, own);
        seen', stack', order', q', own' := seen, stack, order, q[..|q| - 1], own[..|own| - 1];
      } else {
        seen', stack', order', q', own' := Visit(seen, stack, order, q, own);
        MoreSeen(seen, seen', graph.Keys);
      }
    }

    /**
     * `topological_sort`: a depth-first search driven by the queue `q`; a
     * vertex leaves the stack for `order` once the vertex just taken from
     * the queue is not one of its successors. The result lists every vertex
     * reachable from an input gate once and nothing else, and in an acyclic
     * graph every edge points forward in it.
     */
    method TopologicalSort() returns (result: seq<Gate>)
      requires Valid()
      ensures Distinct(result)
      ensures forall v :: v in result ==> v in graph
      ensures forall v :: v in result <==> Reachable(v)
      ensures Acyclic() ==> EdgesForward(result)
    {
      var seen: set<Gate> := {};
      var stack: seq<Gate> := [];
      var order: seq<Gate> := [];
      var q := inputGates;
      ghost var own: seq<int> := seq(|q|, _ => -1);
      SortStart();
      assert SortState(seen, stack, order, q, own);
      while |q| > 0
        invariant SortState(seen, stack, order, q, own)
        decreases |graph.Keys - seen|, |q|
      {
        seen, stack, order, q, own := SortStep(seen, stack, order, q, own);
      }
      SortEnd(seen, stack, order, q, own);
      result := stack + Reverse(order);
    }

    // -------------------------------------------------------------------------
    // Parent and call-stack queries

    /** The vertices among `vs`, in their order, whose successor sets contain `g`. */
    function ParentsIn(vs: seq<Gate>, g: Gate): (r: seq<Gate>)
      reads this
      requires forall i :: 0 <= i < |vs| ==> vs[i] in graph
      ensures forall u :: u in r ==> u in vs && u in graph && g in graph[u]
      ensures forall u :: u in vs && g in graph[u] ==> u in r
      ensures Distinct(vs) ==> Distinct(r)
    {
      if |vs| == 0 then []
      else
        var front := ParentsIn(vs[..|vs| - 1], g);
        var u := vs[|vs| - 1];
        front + (if g in graph[u] then [u] else [])
    }

    /**
     * `get_parents`: walk the vertices in insertion order and keep those
     * with `g` among their successors; each vertex is listed once.
     */
    function Parents(g: Gate): (r: seq<Gate>)
      reads this
      requires Valid()
      ensures Distinct(r)
      ensures forall u :: u in r ==> u in graph && g in graph[u]
      ensures forall u :: u in graph && g in graph[u] ==> u in r
    {
      assert forall i :: 0 <= i < |vertices| ==> vertices[i] in Elems(vertices);
      ParentsIn(vertices, g)
    }

    /**
     * `get_call_stack`: the call stacks of the parents, concatenated in
     * parent order, followed by the parents themselves. Every level of
     * recursion costs one unit of `fuel`, which stands for the interpreter's
     * recursion limit; running out raises RecursionError.
     */
    function CallStack(g: Gate, fuel: nat): Result<seq<Gate>>
      reads this
      requires Valid()
      decreases fuel, 0
    {
      var ps := Parents(g);
      if |ps| == 0 then Ok([])
      else if fuel == 0 then Err(RecursionError)
      else
        var others :- CallStacks(ps, fuel - 1);
        Ok(others + ps)
    }

    /** The loop of `get_call_stack`: the call stacks of `ps`, concatenated. */
    function CallStacks(ps: seq<Gate>, fuel: nat): Result<seq<Gate>>
      reads this
      requires Valid()
      decreases fuel, |ps| + 1
    {
      if |ps| == 0 then Ok([])
      else
        var first :- CallStack(ps[0], fuel);
        var rest :- CallStacks(ps[1..], fuel);
        Ok(first + rest)
    }

    /** `u` reaches `g` along a non-empty path: `u` is an ancestor of `g`. */
    ghost predicate Ancestor(u: Gate, g: Gate)
      reads this
    {
      exists n: nat :: n >= 1 && g in Steps(u, n)
    }

    /** An edge `u -> w` extends every path ending at `u`. */
    lemma StepsExtend(v: Gate, n: nat, u: Gate, w: Gate)
      requires u in Steps(v, n) && u in graph && w in graph[u]
      ensures w in Steps(v, n + 1)
    {
    }

    /** A non-empty path ends with an edge from a vertex on it. */
    lemma StepsLast(v: Gate, n: nat, g: Gate) returns (w: Gate)
      requires n >= 1 && g in Steps(v, n)
      ensures w in Steps(v, n - 1) && w in graph && g in graph[w]
    {
      w :| w in Steps(v, n - 1) && w in graph && g in graph[w];
    }

    /** A parent of an ancestor's child... the ancestors of a parent are ancestors. */
    lemma AncestorStep(u: Gate, p: Gate, g: Gate)
      requires Ancestor(u, p) && p in graph && g in graph[p]
      ensures Ancestor(u, g)
    {
      var n: nat :| n >= 1 && p in Steps(u, n);
      StepsExtend(u, n, p, g);
    }

    /** A vertex on the combined call stacks is on the call stack of some `ps[i]`. */
    lemma {:induction false} CallStacksSource(ps: seq<Gate>, fuel: nat, u: Gate) returns (i: int)
      requires Valid() && CallStacks(ps, fuel).Ok? && u in CallStacks(ps, fuel).value
      ensures 0 <= i < |ps| && CallStack(ps[i], fuel).Ok? && u in CallStack(ps[i], fuel).value
      decreases |ps|
    {
      var first := CallStack(ps[0], fuel).value;
      if u in first {
        i := 0;
      } else {
        var j := CallStacksSource(ps[1..], fuel, u);
        i := j + 1;
      }
    }

    /** The combined call stacks, when they succeed, contain each `ps[i]`'s call stack. */
    lemma {:induction false} CallStacksHold(ps: seq<Gate>, fuel: nat, i: int, u: Gate)
      requires Valid() && CallStacks(ps, fuel).Ok? && 0 <= i < |ps|
      ensures CallStack(ps[i], fuel).Ok?
      ensures u in CallStack(ps[i], fuel).value ==> u in CallStacks(ps, fuel).value
      decreases |ps|
    {
      if i > 0 {
        CallStacksHold(ps[1..], fuel, i - 1, u);
      }
    }

    /** A successful call stack with parents is the parents' call stacks followed by the parents. */
    lemma CallStackUnfold(g: Gate, fuel: nat)
      requires Valid() && CallStack(g, fuel).Ok? && |Parents(g)| > 0
      ensures fuel > 0 && CallStacks(Parents(g), fuel - 1).Ok?
      ensures CallStack(g, fuel).value == CallStacks(Parents(g), fuel - 1).value + Parents(g)
    {
    }

    /** Everything on a successful call stack is an ancestor of `g`. */
    lemma {:induction false} CallStackSound(g: Gate, fuel: nat, u: Gate)
      requires Valid() && CallStack(g, fuel).Ok? && u in CallStack(g, fuel).value
      ensures Ancestor(u, g)
      decreases fuel
    {
      if u in Parents(g) {
        assert u in Steps(u, 0);
        StepsExtend(u, 0, u, g);
      } else {
        var i := CallStackThrough(g, fuel, u);
        CallStackSound(Parents(g)[i], fuel - 1, u);
        AncestorStep(u, Parents(g)[i], g);
      }
    }

    /** A vertex on a successful call stack that is not a parent of `g` comes from some parent's call stack. */
    lemma CallStackThrough(g: Gate, fuel: nat, u: Gate) returns (i: int)
      requires Valid() && CallStack(g, fuel).Ok? && u in CallStack(g, fuel).value && u !in Parents(g)
      ensures fuel > 0 && 0 <= i < |Parents(g)| && Parents(g)[i] in graph && g in graph[Parents(g)[i]]
      ensures CallStack(Parents(g)[i], fuel - 1).Ok? && u in CallStack(Parents(g)[i], fuel - 1).value
    {
      CallStackUnfold(g, fuel);
      i := CallStacksSource(Parents(g), fuel - 1, u);
    }

    /** The start `u` of every path of `n >= 1` edges to `g` is on a successful call stack. */
    lemma {:induction false} CallStackComplete(g: Gate, fuel: nat, u: Gate, n: nat)
      requires Valid() && CallStack(g, fuel).Ok? && n >= 1 && g in Steps(u, n)
      ensures u in CallStack(g, fuel).value
      decreases n
    {
      var ps := Parents(g);
      if n == 1 {
        ParentStep(u, g);
        CallStackUnfold(g, fuel);
      } else {
        var w := StepsLast(u, n, g);
        assert w in ps;
        var i :| 0 <= i < |ps| && ps[i] == w;
        CallStackParent(g, fuel, i, u);
        CallStackComplete(w, fuel - 1, u, n - 1);
      }
    }

    /** A parent's call stack succeeds one level down, and what it holds is on `g`'s call stack. */
    lemma CallStackParent(g: Gate, fuel: nat, i: int, u: Gate)
      requires Valid() && CallStack(g, fuel).Ok? && 0 <= i < |Parents(g)|
      ensures fuel > 0 && CallStack(Parents(g)[i], fuel - 1).Ok?
      ensures u in CallStack(Parents(g)[i], fuel - 1).value ==> u in CallStack(g, fuel).value
    {
      CallStackUnfold(g, fuel);
      CallStacksHold(Parents(g), fuel - 1, i, u);
    }

    /** The start of a one-edge path to `g` is a parent of `g`. */
    lemma ParentStep(u: Gate, g: Gate)
      requires Valid() && g in Steps(u, 1)
      ensures u in Parents(g)
    {
      var w := StepsLast(u, 1, g);
      assert Steps(u, 0) == {u};
    }

    /** A successful call stack lists exactly the ancestors of `g`. */
    lemma CallStackAncestors(g: Gate, fuel: nat, u: Gate)
      requires Valid() && CallStack(g, fuel).Ok?
      ensures u in CallStack(g, fuel).value <==> Ancestor(u, g)
    {
      if u in CallStack(g, fuel).value {
        CallStackSound(g, fuel, u);
      }
      if Ancestor(u, g) {
        var n: nat :| n >= 1 && g in Steps(u, n);
        CallStackComplete(g, fuel, u, n);
      }
    }

    /** One failing call stack makes the combined call stacks fail. */
    lemma {:induction false} CallStacksFail(ps: seq<Gate>, fuel: nat, i: int)
      requires Valid() && 0 <= i < |ps| && CallStack(ps[i], fuel).Err?
      ensures CallStacks(ps, fuel).Err?
      decreases |ps|
    {
      if i > 0 && CallStack(ps[0], fuel).Ok? {
        assert ps[1..][i - 1] == ps[i];
        CallStacksFail(ps[1..], fuel, i - 1);
        CallStacksTail(ps, fuel);
      }
    }

    /** The combined call stacks fail when those of all but the first do. */
    lemma CallStacksTail(ps: seq<Gate>, fuel: nat)
      requires Valid() && |ps| > 0 && CallStacks(ps[1..], fuel).Err?
      ensures CallStacks(ps, fuel).Err?
    {
    }

    /**
     * A path of more than `fuel` edges ending at `g` exhausts the recursion
     * limit: every edge of it is one more level of recursion.
     */
    lemma {:induction false} DeepPathExhausts(g: Gate, fuel: nat, u: Gate, n: nat)
      requires Valid() && g in Steps(u, n) && n > fuel
      ensures CallStack(g, fuel).Err?
      decreases fuel
    {
      var ps := Parents(g);
      var w := StepsLast(u, n, g);
      assert w in ps;
      if fuel > 0 {
        DeepPathExhausts(w, fuel - 1, u, n - 1);
        var i :| 0 <= i < |ps| && ps[i] == w;
        CallStacksFail(ps, fuel - 1, i);
      }
    }

    /** Paths compose. */
    lemma {:induction false} StepsConcat(v: Gate, a: nat, w: Gate, b: nat, x: Gate)
      requires w in Steps(v, a) && x in Steps(w, b)
      ensures x in Steps(v, a + b)
      decreases b
    {
      if b > 0 {
        var y := StepsLast(w, b, x);
        StepsConcat(v, a, w, b - 1, y);
        StepsExtend(v, a + b - 1, y, x);
      }
    }

    /** Going round a cycle `m` times. */
    lemma {:induction false} StepsRepeat(g: Gate, k: nat, m: nat)
      requires g in Steps(g, k)
      ensures g in Steps(g, k * m)
      decreases m
    {
      if m == 0 {
        assert Steps(g, 0) == {g};
      } else {
        StepsRepeat(g, k, m - 1);
        StepsConcat(g, k * (m - 1), g, k, g);
        assert k * (m - 1) + k == k * m;
      }
    }

    /** On a cycle, `get_call_stack` recurses until the recursion limit, whatever it is. */
    lemma CycleExhausts(g: Gate, k: nat, fuel: nat)
      requires Valid() && k >= 1 && g in Steps(g, k)
      ensures CallStack(g, fuel).Err?
    {
      StepsRepeat(g, k, fuel + 1);
      assert k * (fuel + 1) > fuel;
      DeepPathExhausts(g, fuel, g, k * (fuel + 1));
    }

    // -------------------------------------------------------------------------
    // The forward pass

    /** The visiting order of `forward`: the topological order, holding every input gate once. */
    method Schedule() returns (order: seq<Gate>)
      requires Valid()
      ensures Distinct(order) && CountIn(order, inputGates) == |Elems(inputGates)| && AllIn(order)
    {
      order := TopologicalSort();
      InputsListed(order);
    }

    /** A listing of exactly the reachable vertices holds every input gate once. */
    lemma InputsListed(order: seq<Gate>)
      requires Distinct(order) && forall v :: v in order ==> v in graph
      requires forall v :: v in order <==> Reachable(v)
      ensures CountIn(order, inputGates) == |Elems(inputGates)| && AllIn(order)
    {
      forall g | g in inputGates
        ensures g in order
      {
        ReachInput(g);
      }
      CountInCovers(order, inputGates);
    }

    /** Taking one more value from the front keeps `rest` a suffix. */
    lemma SuffixStep(all: seq<Item>, rest: seq<Item>)
      requires |rest| > 0 && |rest| <= |all| && rest == all[|all| - |rest|..]
      ensures rest[1..] == all[|all| - |rest[1..]|..]
    {
    }

    /**
     * An input gate's turn in `forward`: `gate.forward` is looked up, then
     * the front of `input_values` is popped and passed to it, and its output
     * joins the queue.
     */
    method FeedInput(gate: Gate, ghost all: seq<Item>, rest: seq<Item>, results: seq<Item>)
      returns (r: Outcome, rest': seq<Item>, results': seq<Item>)
      requires |rest| <= |all| && rest == all[|all| - |rest|..]
      requires forall t :: t in Objs(rest) ==> t.Wellformed()
      requires forall t :: t in Objs(results) ==> t.Wellformed()
      modifies gate`x, gate`y, Objs(rest)`iterCount
      ensures gate.kind == Plain ==> r == Fail(AttributeError) && rest' == rest
      ensures gate.kind != Plain && |rest| == 0 ==> r == Fail(IndexError) && rest' == rest
      ensures gate.kind != Plain && |rest| > 0 ==> rest' == rest[1..]
      ensures r.Pass? ==> |rest| > 0 && rest' == rest[1..]
      // only a constant gate takes one argument; it caches it and passes a tensor on
      ensures gate.kind == Constant && |rest| > 0 ==>
                gate.x == Some(rest[0]) && r == (if rest[0].Obj? then Pass else Fail(AssertionError))
      ensures (gate.kind == Add || gate.kind == Multiply) && |rest| > 0 ==> r == Fail(TypeError)
      ensures results' == if r.Pass? then results + [rest[0]] else results
      ensures |rest'| <= |all| && rest' == all[|all| - |rest'|..] && Objs(rest') <= Objs(rest)
      ensures forall t :: t in Objs(rest) ==> t.Wellformed()
      ensures forall t :: t in Objs(results') ==> t.Wellformed() && (t in Objs(results) + Objs(rest) || fresh(t))
    {
      rest', results' := rest, results;
      if gate.kind == Plain {
        return Fail(AttributeError), rest', results';
      }
      if |rest| == 0 {
        return Fail(IndexError), rest', results';
      }
      var arg := rest[0];
      rest' := rest[1..];
      SuffixStep(all, rest);
      assert Objs([arg]) <= Objs(rest) && Objs(rest') <= Objs(rest);
      var out := gate.Forward([arg]);
      if out.Err? {
        return Fail(out.error), rest', results';
      }
      results' := results + [out.value];
      r := Pass;
    }

    /**
     * Any other gate's turn in `forward`: pop `n_inputs` arguments from the
     * front of the queue, call `forward`, and extend the queue with the
     * output's elements.
     */
    method FeedInner(gate: Gate, results: seq<Item>) returns (r: Outcome, results': seq<Item>)
      requires forall t :: t in Objs(results) ==> t.Wellformed()
      modifies gate`x, gate`y, Objs(results)`iterCount
      ensures |results| < gate.nInputs ==> r == Fail(IndexError)
      // the first `n_inputs` results are popped and passed to the gate in queue order
      ensures var n := if gate.nInputs > 0 then gate.nInputs else 0;
              |results| >= n ==>
                (gate.kind == Plain ==> r == Fail(AttributeError)) &&
                (gate.kind != Plain && n != Arity(gate.kind) ==> r == Fail(TypeError)) &&
                (gate.kind == Constant && n == 1 ==> gate.x == Some(results[0])) &&
                (gate.kind == Multiply && n == 2 ==> gate.x == Some(results[0]) && gate.y == Some(results[1])) &&
                (r.Pass? ==> |results'| >= |results| - n && results'[..|results| - n] == results[n..])
      ensures forall t :: t in Objs(results) ==> t.Wellformed()
      ensures forall t :: t in Objs(results') ==> t.Wellformed() && (t in Objs(results) || fresh(t))
    {
      r, results' := Pass, results;
      var n := if gate.nInputs > 0 then gate.nInputs else 0;
      if |results| < n {
        return Fail(IndexError), results';
      }
      var args := results[..n];
      var queue := results[n..];
      assert Objs(args) <= Objs(results);
      assert Objs(queue) <= Objs(results);
      assert forall i :: 0 <= i < |args| && args[i].Obj? ==> args[i].t in Objs(results);
      var out; ghost var from;
      r, results', out, from := Invoke(gate, args, queue);
    }

    /**
     * `results.extend(gate.forward(*args))` once the arguments are popped,
     * leaving `queue`: `out` is what `forward` returned, and `from` where
     * the cursor of a tensor output stood when `extend` iterated it.
     */
    method Invoke(gate: Gate, args: seq<Item>, queue: seq<Item>)
      returns (r: Outcome, results': seq<Item>, out: Result<Item>, ghost from: int)
      requires forall i :: 0 <= i < |args| && args[i].Obj? ==> args[i].t.Wellformed()
      modifies gate`x, gate`y, Objs(args)`iterCount
      ensures gate.kind == Plain ==> r == Fail(AttributeError)
      ensures gate.kind != Plain && |args| != Arity(gate.kind) ==> r == Fail(TypeError)
      ensures gate.kind == Constant && |args| == 1 ==>
                gate.x == Some(args[0]) && out == (if args[0].Obj? then Ok(args[0]) else Err(AssertionError)) &&
                (args[0].Obj? ==> from == old(args[0].t.iterCount))
      ensures gate.kind == Add && |args| == 2 ==> PlusSpec(args[0], args[1], out)
      ensures gate.kind == Multiply && |args| == 2 ==>
                gate.x == Some(args[0]) && gate.y == Some(args[1]) &&
                AtSpec(args[0], args[1], if args[1].Obj? then old(args[1].t.iterCount) else -1, out)
      // an error from `forward` is the error raised
      ensures gate.kind != Plain && |args| == Arity(gate.kind) && out.Err? ==> r == Fail(out.error)
      // the output's elements join the queue behind what is left of it
      ensures out.Ok? ==> Extends(out.value, from, queue, r, results')
      // a new tensor is iterated from the start
      ensures gate.kind != Constant && out.Ok? && out.value.Obj? ==> from == -1
      ensures r.Pass? ==> |results'| >= |queue| && results'[..|queue|] == queue
      ensures forall i :: 0 <= i < |args| && args[i].Obj? ==> args[i].t.Wellformed()
      ensures Objs(results') == Objs(queue)
    {
      match gate.kind
      case Plain =>
        // `Gate` itself has no `forward`
        r, results', out, from := Fail(AttributeError), queue, Err(AttributeError), -1;
      case Constant =>
        r, results', out, from := InvokeConstant(gate, args, queue);
      case Add =>
        r, results', out, from := InvokeAdd(gate, args, queue);
      case Multiply =>
        r, results', out, from := InvokeMultiply(gate, args, queue);
    }

    /** `Invoke` for a constant gate: its input is handed on and iterated from its own cursor. */
    method InvokeConstant(gate: Gate, args: seq<Item>, queue: seq<Item>)
      returns (r: Outcome, results': seq<Item>, out: Result<Item>, ghost from: int)
      requires gate.kind == Constant
      requires forall i :: 0 <= i < |args| && args[i].Obj? ==> args[i].t.Wellformed()
      modifies gate`x, gate`y, Objs(args)`iterCount
      ensures |args| != 1 ==> r == Fail(TypeError)
      ensures |args| == 1 ==>
                gate.x == Some(args[0]) && out == (if args[0].Obj? then Ok(args[0]) else Err(AssertionError)) &&
                (args[0].Obj? ==> from == old(args[0].t.iterCount))
      ensures |args| == 1 && out.Err? ==> r == Fail(out.error)
      ensures out.Ok? ==> Extends(out.value, from, queue, r, results')
      ensures r.Pass? ==> |results'| >= |queue| && results'[..|queue|] == queue
      ensures forall i :: 0 <= i < |args| && args[i].Obj? ==> args[i].t.Wellformed()
      ensures Objs(results') == Objs(queue)
    {
      r, results', from := Pass, queue, -1;
      out := gate.Forward(args);
      if out.Err? {
        return Fail(out.error), results', out, from;
      }
      from := out.value.t.iterCount;
      r, results' := Spread(out.value, results');
    }

    /** `Invoke` for an add gate: `x + y` is new, so it is iterated from the start. */
    method InvokeAdd(gate: Gate, args: seq<Item>, queue: seq<Item>)
      returns (r: Outcome, results': seq<Item>, out: Result<Item>, ghost from: int)
      requires gate.kind == Add
      requires forall i :: 0 <= i < |args| && args[i].Obj? ==> args[i].t.Wellformed()
      modifies gate`x, gate`y, Objs(args)`iterCount
      ensures |args| != 2 ==> r == Fail(TypeError)
      ensures |args| == 2 ==> PlusSpec(args[0], args[1], out)
      ensures |args| == 2 && out.Err? ==> r == Fail(out.error)
      ensures out.Ok? ==> Extends(out.value, from, queue, r, results')
      ensures out.Ok? && out.value.Obj? ==> from == -1
      ensures r.Pass? ==> |results'| >= |queue| && results'[..|queue|] == queue
      ensures forall i :: 0 <= i < |args| && args[i].Obj? ==> args[i].t.Wellformed()
      ensures Objs(results') == Objs(queue)
    {
      r, results', from := Pass, queue, -1;
      out := gate.Forward(args);
      if out.Err? {
        return Fail(out.error), results', out, from;
      }
      assert Objs([args[0], args[1]]) <= Objs(args);
      r, results' := SpreadNew(args[0], args[1], -1, out.value, results');
    }

    /**
     * `Invoke` for a multiply gate: `MultiplyGate.forward(x, y)` takes exactly
     * two arguments; `x @ y` is new, so it is iterated from the start.
     */
    method InvokeMultiply(gate: Gate, args: seq<Item>, queue: seq<Item>)
      returns (r: Outcome, results': seq<Item>, out: Result<Item>, ghost from: int)
      requires gate.kind == Multiply
      requires forall i :: 0 <= i < |args| && args[i].Obj? ==> args[i].t.Wellformed()
      modifies gate`x, gate`y, Objs(args)`iterCount
      ensures |args| != 2 ==> r == Fail(TypeError)
      ensures |args| == 2 ==>
                gate.x == Some(args[0]) && gate.y == Some(args[1]) &&
                AtSpec(args[0], args[1], if args[1].Obj? then old(args[1].t.iterCount) else -1, out)
      ensures |args| == 2 && out.Err? ==> r == Fail(out.error)
      ensures out.Ok? ==> Extends(out.value, from, queue, r, results')
      ensures out.Ok? && out.value.Obj? ==> from == -1
      ensures r.Pass? ==> |results'| >= |queue| && results'[..|queue|] == queue
      ensures forall i :: 0 <= i < |args| && args[i].Obj? ==> args[i].t.Wellformed()
      ensures Objs(results') == Objs(queue)
    {
      r, results', from := Pass, queue, -1;
      if |args| != 2 {
        // `forward(x, y)` called with the wrong number of arguments
        return Fail(TypeError), results', Err(TypeError), from;
      }
      assert Objs([args[1]]) <= Objs(args);
      out := gate.ForwardMultiply(args[0], args[1]);
      if out.Err? {
        return Fail(out.error), results', out, from;
      }
      assert Objs([args[0], args[1]]) <= Objs(args);
      ghost var c := if args[1].Obj? then old(args[1].t.iterCount) else -1;
      r, results' := SpreadNew(args[0], args[1], c, out.value, results');
    }

    /**
     * `results.extend(out)` for the new output of `x + y` or `x @ y`: the
     * output is iterated from the start and left at rest, so what `+` and
     * `@` state about it still holds afterwards.
     */
    method SpreadNew(a: Item, b: Item, ghost c: int, out: Item, results: seq<Item>) returns (r: Outcome, results': seq<Item>)
      requires out.Obj? ==> out.t.AtRest() && out.t !in Objs([a, b])
      modifies OptObjs(Some(out))`iterCount
      ensures out.Obj? ==> out.t.AtRest()
      ensures Extends(out, -1, results, r, results')
      ensures Objs(results') == Objs(results)
      ensures old(PlusSpec(a, b, Ok(out))) ==> PlusSpec(a, b, Ok(out))
      ensures old(AtSpec(a, b, c, Ok(out))) ==> AtSpec(a, b, c, Ok(out))
    {
      r, results' := Spread(out, results);
    }

    /**
     * `results.extend(output)`: a tensor output is iterated from its cursor
     * on and each element joins the queue; a number is not iterable.
     */
    method Spread(out: Item, results: seq<Item>) returns (r: Outcome, results': seq<Item>)
      requires out.Obj? ==> out.t.Wellformed()
      modifies OptObjs(Some(out))`iterCount
      ensures out.Obj? ==> out.t.Wellformed() && out.t.iterCount == -1
      ensures Extends(out, if out.Obj? then old(out.t.iterCount) else -1, results, r, results')
      ensures Objs(results') == Objs(results)
    {
      r, results' := Pass, results;
      match out
      case Obj(t) =>
        var xs := t.Items();
        if xs.Err? {
          return Fail(xs.error), results';
        }
        ObjsRaw(results', Raws(xs.value));
        results' := results' + Raws(xs.value);
      case Raw(v) =>
        if v.Num? {
          return Fail(TypeError), results';
        }
        ObjsRaw(results', Raws(v.items));
        results' := results' + Raws(v.items);
    }

    /**
     * `forward(input_values)`: visit the gates in topological order. An
     * input gate takes the front of `input_values` and its output joins the
     * `results` queue; any other gate takes its `n_inputs` arguments from
     * the front of `results` and its output is spread into the queue
     * element by element (a tensor is iterated, a number is not iterable).
     * The method returns nothing; `rest` is what is left of the caller's
     * `input_values`. A pass consumes exactly one value per input gate.
     */
    method Forward(inputValues: seq<Item>) returns (r: Outcome, rest: seq<Item>)
      requires Valid()
      requires forall t :: t in Objs(inputValues) ==> t.Wellformed()
      modifies graph.Keys, Objs(inputValues)`iterCount
      ensures |rest| <= |inputValues| && rest == inputValues[|inputValues| - |rest|..]
      ensures r.Pass? ==>
                |Elems(inputGates)| <= |inputValues| && rest == inputValues[|Elems(inputGates)|..]
    {
      var order := Schedule();
      var inputs := inputGates;
      var results: seq<Item> := [];
      rest := inputValues;
      for i := 0 to |order|
        invariant |rest| <= |inputValues| && rest == inputValues[|inputValues| - |rest|..]
        invariant |inputValues| - |rest| == CountIn(order[..i], inputs)
        invariant Objs(rest) <= Objs(inputValues)
        invariant forall t :: t in Objs(rest) ==> t.Wellformed()
        invariant forall t :: t in Objs(results) ==> t.Wellformed() && (t in Objs(inputValues) || fresh(t))
      {
        var gate := order[i];
        assert gate in graph;
        assert order[..i + 1][..i] == order[..i];
        if gate in inputs {
          r, rest, results := FeedInput(gate, inputValues, rest, results);
        } else {
          r, results := FeedInner(gate, results);
        }
        if r.Fail? {
          return;
        }
      }
      assert order[..|order|] == order;
      r := Pass;
    }
  }
}
