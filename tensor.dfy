/**
 * `Tensor`: a nested list of numbers with the shape derived from it at
 * construction, element-wise arithmetic, matrix product, transpose, bias
 * appending and element-wise application; together with `fill`, `zeros`
 * and `ones`, which wrap the lists built by `Utils.FillList`.
 */
module Tensors {
  import opened Wrappers
  import opened Values
  import opened Validation
  import Utils

  /** The three element-wise operators. */
  datatype Op = Plus | Minus | Times {
    function Eval(x: int, y: int): int {
      match this
      case Plus => x + y
      case Minus => x - y
      case Times => x * y
    }
  }

  /** What `__matmul__` returns: a number for two vectors, otherwise a tensor. */
  datatype Product = Scalar(n: int) | Matrix(t: Tensor)

  // ---------------------------------------------------------------------------
  // Specification functions

  /** The transpose of `v` of shape `s`: the entry at `reverse(t)` is the entry of `v` at `t`. */
  function Transposed(v: Value, s: seq<nat>): Value {
    Tabulate(Reverse(s), t => Entry(v, Reverse(t)))
  }

  /** The point-wise combination of two values of shape `s`. */
  function Combine(a: Value, b: Value, s: seq<nat>, op: Op): Value {
    Tabulate(s, t => op.Eval(Entry(a, t), Entry(b, t)))
  }

  /** `f` applied to every entry of `v` of shape `s`. */
  function Mapped(v: Value, s: seq<nat>, f: int -> int): Value {
    Tabulate(s, t => f(Entry(v, t)))
  }

  /** The transpose has the reversed shape and moves the entry at `t` to `reverse(t)`. */
  lemma TransposedSpec(v: Value, s: seq<nat>)
    ensures Rect(Transposed(v, s), Reverse(s))
    ensures forall t :: InBounds(t, s) ==> Entry(Transposed(v, s), Reverse(t)) == Entry(v, t)
  {
    TabulateSpec(Reverse(s), t => Entry(v, Reverse(t)));
    forall t | InBounds(t, s) ensures Entry(Transposed(v, s), Reverse(t)) == Entry(v, t) {
      ReverseInBounds(t, s);
      ReverseReverse(t);
    }
  }

  /** One entry of the transpose: the entry at `t` moves to `reverse(t)`. */
  lemma TransposedAt(v: Value, s: seq<nat>, t: seq<int>)
    requires InBounds(t, s)
    ensures Entry(Transposed(v, s), Reverse(t)) == Entry(v, t)
  {
    ReverseInBounds(t, s);
    TabulateEntry(Reverse(s), u => Entry(v, Reverse(u)), Reverse(t));
    ReverseReverse(t);
  }

  /** The shape `get_tensor_shape` reads off a transposed value. */
  lemma TransposedShape(v: Value, s: seq<nat>)
    ensures ShapeOf(Transposed(v, s)) == Truncate(Reverse(s))
  {
    TabulateSpec(Reverse(s), t => Entry(v, Reverse(t)));
    ShapeOfRect(Transposed(v, s), Reverse(s));
  }

  /** Transposing twice gives back the original value. */
  lemma TransposeInvolution(v: Value, s: seq<nat>)
    requires Rect(v, s)
    ensures Transposed(Transposed(v, s), Reverse(s)) == v
  {
    var w := Transposed(v, s);
    var u := Transposed(w, Reverse(s));
    TransposedSpec(v, s);
    TransposedSpec(w, Reverse(s));
    ReverseReverse(s);
    forall t | InBounds(t, s) ensures Entry(u, t) == Entry(v, t) {
      ReverseInBounds(t, s);
      ReverseReverse(t);
      assert Entry(u, Reverse(Reverse(t))) == Entry(w, Reverse(t));
    }
    Extensionality(u, v, s);
  }

  /**
   * The shape a tensor gets after `T` twice is its own shape when no size is
   * zero; `(2, 0)` comes back as `(0,)`.
   */
  lemma TransposeTwiceShape(s: seq<nat>)
    requires forall i :: 0 <= i < |s| ==> s[i] > 0
    ensures Truncate(Reverse(Truncate(Reverse(s)))) == s
  {
    ReverseReverse(s);
  }

  /** A shape whose first zero size is at `i` is truncated right after it. */
  lemma {:induction false} TruncateAtZero(s: seq<nat>, i: nat)
    requires i < |s| && s[i] == 0 && forall k :: 0 <= k < i ==> s[k] > 0
    ensures Truncate(s) == s[..i + 1]
  {
    if i > 0 {
      TruncateAtZero(s[1..], i - 1);
      assert s[..i + 1] == [s[0]] + s[1..][..i];
    }
  }

  /** The last zero size of a shape that holds one. */
  lemma LastZero(s: seq<nat>, i: nat) returns (j: nat)
    requires i < |s| && s[i] == 0
    ensures i <= j < |s| && s[j] == 0 && forall m :: j < m < |s| ==> s[m] > 0
  {
    j := |s| - 1;
    while s[j] != 0
      invariant i <= j < |s| && forall m :: j < m < |s| ==> s[m] > 0
      decreases j
    {
      j := j - 1;
    }
  }

  /**
   * A shape holding a zero size comes back from `T` twice as `(0,)`: the
   * first `T` keeps the reversed shape up to the last zero, which the second
   * then starts with. So no such shape other than `(0,)` survives.
   */
  lemma TransposeTwiceLosesEmptyAxis(s: seq<nat>, i: nat)
    requires i < |s| && s[i] == 0
    ensures Truncate(Reverse(Truncate(Reverse(s)))) == [0]
  {
    var j := LastZero(s, i);
    var t := ReversedUpToZero(s, j);
    var u := Reverse(t);
    assert u[0] == 0;
  }

  /** The reversed shape is truncated at the last zero of `s`, which ends it. */
  lemma ReversedUpToZero(s: seq<nat>, j: nat) returns (t: seq<nat>)
    requires j < |s| && s[j] == 0 && forall m :: j < m < |s| ==> s[m] > 0
    ensures t == Truncate(Reverse(s)) && |t| > 0 && t[|t| - 1] == 0
  {
    var r := Reverse(s);
    var k := |s| - 1 - j;
    forall m | 0 <= m < k
      ensures r[m] > 0
    {
      assert r[m] == s[|s| - 1 - m];
    }
    TruncateAtZero(r, k);
    t := r[..k + 1];
  }

  /** Each entry of a point-wise combination combines the two entries at the same index. */
  lemma CombineSpec(a: Value, b: Value, s: seq<nat>, op: Op)
    ensures Rect(Combine(a, b, s, op), s)
    ensures forall t :: InBounds(t, s) ==> Entry(Combine(a, b, s, op), t) == op.Eval(Entry(a, t), Entry(b, t))
  {
    TabulateSpec(s, t => op.Eval(Entry(a, t), Entry(b, t)));
  }

  /** `(a - b) + b == a` for values of one shape. */
  lemma SubThenAdd(a: Value, b: Value, s: seq<nat>)
    requires Rect(a, s)
    ensures Combine(Combine(a, b, s, Minus), b, s, Plus) == a
  {
    var d := Combine(a, b, s, Minus);
    CombineSpec(a, b, s, Minus);
    CombineSpec(d, b, s, Plus);
    Extensionality(Combine(d, b, s, Plus), a, s);
  }

  /** Multiplying by `ones` of the same shape changes nothing. */
  lemma TimesOnes(a: Value, s: seq<nat>)
    requires Rect(a, s)
    ensures Combine(a, FillValue(1, s), s, Times) == a
  {
    CombineSpec(a, FillValue(1, s), s, Times);
    FillValueSpec(1, s);
    Extensionality(Combine(a, FillValue(1, s), s, Times), a, s);
  }

  /** `fill(c, shape) * t` is `t.apply(x -> c * x)`. */
  lemma FillTimesIsApply(c: int, a: Value, s: seq<nat>)
    requires Rect(a, s)
    ensures Combine(FillValue(c, s), a, s, Times) == Mapped(a, s, x => c * x)
  {
    CombineSpec(FillValue(c, s), a, s, Times);
    FillValueSpec(c, s);
    TabulateSpec(s, t => (x => c * x)(Entry(a, t)));
    Extensionality(Combine(FillValue(c, s), a, s, Times), Mapped(a, s, x => c * x), s);
  }

  /** `apply` keeps the shape and replaces each entry `x` by `f(x)`. */
  lemma MappedSpec(v: Value, s: seq<nat>, f: int -> int)
    ensures Rect(Mapped(v, s, f), s)
    ensures forall t :: InBounds(t, s) ==> Entry(Mapped(v, s, f), t) == f(Entry(v, t))
  {
    TabulateSpec(s, t => f(Entry(v, t)));
  }

  /**
   * The operands `__mul__` multiplies and their shape: a shape-`(1,)` side is
   * replaced by `fill` of its single entry over the other side's shape.
   */
  function MulOperands(a: Value, sa: seq<nat>, b: Value, sb: seq<nat>): Result<(Value, Value, seq<nat>)> {
    var left :- if IsScalar(sa) then
                  (if |sb| == 0 then Err(IndexError) else Ok((FillValue(Entry(a, [0]), sb), Truncate(sb))))
                else Ok((a, sa));
    var right :- if IsScalar(sb) then
                   (if |left.1| == 0 then Err(IndexError) else Ok((FillValue(Entry(b, [0]), left.1), Truncate(left.1))))
                 else Ok((b, sb));
    if left.1 != right.1 then Err(ValueError)
    else if |left.1| == 0 then Err(IndexError)
    else Ok((left.0, right.0, left.1))
  }

  /** A scalar operand multiplies every entry of the other operand. */
  lemma ScalarTimes(c: Value, b: Value, sb: seq<nat>)
    requires Rect(c, [1]) && Rect(b, sb) && |sb| > 0 && sb != [1]
    requires forall i :: 0 <= i < |sb| - 1 ==> sb[i] > 0
    ensures MulOperands(c, [1], b, sb).Ok?
    ensures var (l, r, s) := MulOperands(c, [1], b, sb).value;
      s == sb && Combine(l, r, s, Times) == Mapped(b, sb, x => Entry(c, [0]) * x)
  {
    FillTimesIsApply(Entry(c, [0]), b, sb);
  }

  /** Two operands of different shapes, neither of shape `(1,)`, are rejected. */
  lemma MulShapeMismatch(a: Value, sa: seq<nat>, b: Value, sb: seq<nat>)
    requires sa != [1] && sb != [1] && sa != sb
    ensures MulOperands(a, sa, b, sb) == Err(ValueError)
  {
  }

  /** `sum(i * j for i, j in zip(xs, ys))` over the first `n` pairs. */
  function DotPrefix(xs: seq<Value>, ys: seq<Value>, n: nat): int
    requires n <= |xs| && n <= |ys|
  {
    if n == 0 then 0 else DotPrefix(xs, ys, n - 1) + Entry(xs[n - 1], []) * Entry(ys[n - 1], [])
  }

  /** The 1-D product: `zip` stops at the shorter operand. */
  function ZipDot(xs: seq<Value>, ys: seq<Value>): int {
    DotPrefix(xs, ys, if |xs| <= |ys| then |xs| else |ys|)
  }

  /** Coordinate `k` of an index tuple, 0 when the tuple is too short. */
  function Coord(t: seq<int>, k: nat): int {
    if k < |t| then t[k] else 0
  }

  /** `sum([a[i][k] * b[k][j] for k in range(n)])`. */
  function DotAt(a: Value, b: Value, i: int, j: int, n: nat): int {
    if n == 0 then 0 else DotAt(a, b, i, j, n - 1) + Entry(a, [i, n - 1]) * Entry(b, [n - 1, j])
  }

  /**
   * The value `__matmul__` returns for an `(M, n)` left and an `(n, P)` right
   * operand: the `M` by `P` product, flattened to length `M` when `P` is 1.
   */
  function MatProduct(a: Value, b: Value, M: nat, n: nat, P: nat): Value {
    if M > 0 && P == 1 then Tabulate([M], t => DotAt(a, b, Coord(t, 0), 0, n))
    else Tabulate([M, P], t => DotAt(a, b, Coord(t, 0), Coord(t, 1), n))
  }

  /** `[[y] for y in ys]`: a vector promoted to a one-column matrix. */
  function ColumnOf(ys: seq<Value>): Value {
    List(seq(|ys|, k requires 0 <= k < |ys| => List([ys[k]])))
  }

  /**
   * The matrix product: result `[i][j]` is the sum over `k` of `a[i][k] * b[k][j]`,
   * of shape `(M, P)`, or of shape `(M,)` holding column 0 when `P` is 1.
   */
  lemma MatProductSpec(a: Value, b: Value, M: nat, n: nat, P: nat)
    ensures !(M > 0 && P == 1) ==>
              Rect(MatProduct(a, b, M, n, P), [M, P]) &&
              forall i, j :: 0 <= i < M && 0 <= j < P ==> Entry(MatProduct(a, b, M, n, P), [i, j]) == DotAt(a, b, i, j, n)
    ensures M > 0 && P == 1 ==>
              Rect(MatProduct(a, b, M, n, P), [M]) &&
              forall i :: 0 <= i < M ==> Entry(MatProduct(a, b, M, n, P), [i]) == DotAt(a, b, i, 0, n)
  {
    if M > 0 && P == 1 {
      TabulateSpec([M], t => DotAt(a, b, Coord(t, 0), 0, n));
      forall i | 0 <= i < M ensures Entry(MatProduct(a, b, M, n, P), [i]) == DotAt(a, b, i, 0, n) {
        assert InBounds([i], [M]);
      }
    } else {
      TabulateSpec([M, P], t => DotAt(a, b, Coord(t, 0), Coord(t, 1), n));
      forall i, j | 0 <= i < M && 0 <= j < P
        ensures Entry(MatProduct(a, b, M, n, P), [i, j]) == DotAt(a, b, i, j, n)
      {
        assert InBounds([i, j], [M, P]);
      }
    }
  }

  /** The matrix-vector sum `a[i][0] * x[0] + ... + a[i][n-1] * x[n-1]`. */
  function MatVecAt(a: Value, x: Value, i: int, n: nat): int {
    if n == 0 then 0 else MatVecAt(a, x, i, n - 1) + Entry(a, [i, n - 1]) * Entry(x, [n - 1])
  }

  /** Multiplying by a promoted vector is the matrix-vector product with that vector. */
  lemma {:induction false} PromotedColumn(a: Value, x: Value, i: int, n: nat)
    requires x.List? && n <= |x.items|
    ensures DotAt(a, ColumnOf(x.items), i, 0, n) == MatVecAt(a, x, i, n)
  {
    if n > 0 {
      PromotedColumn(a, x, i, n - 1);
      var t: seq<int> := [n - 1, 0];
      assert ColumnOf(x.items).items[n - 1] == List([x.items[n - 1]]);
      assert t[1..] == [0] && t[1..][1..] == [];
      assert Entry(ColumnOf(x.items), t) == Entry(x.items[n - 1], []);
    }
  }

  /** A promoted vector of numbers has shape `(n, 1)`, or `(0,)` when it is empty. */
  lemma ColumnOfShape(ys: seq<Value>)
    requires forall k :: 0 <= k < |ys| ==> ys[k].Num?
    ensures var s := if |ys| == 0 then [0] else [|ys|, 1];
            ShapeOf(ColumnOf(ys)) == s && Rect(ColumnOf(ys), s)
  {
    if |ys| > 0 {
      assert Rect(ColumnOf(ys), [|ys|, 1]);
      ShapeOfRect(ColumnOf(ys), [|ys|, 1]);
    }
  }

  /** The elements of a list value; a number has none. */
  function Elements(v: Value): seq<Value> {
    if v.List? then v.items else []
  }

  /**
   * `v_append` on a matrix: row `i` of `a` followed by `col[i]`, for as many
   * rows as both sides supply (`zip` stops at the shorter one).
   */
  function AppendColumn(a: Value, col: seq<Value>): Value {
    var rows := Elements(a);
    var k := if |rows| <= |col| then |rows| else |col|;
    List(seq(k, i requires 0 <= i < k => List(Elements(rows[i]) + [col[i]])))
  }

  /**
   * Appending a column of numbers to an `(n, p)` matrix gives a `(k, p + 1)`
   * matrix, `k` the shorter of the two lengths, whose last column is `col`
   * and whose other entries are those of `a`.
   */
  lemma AppendColumnSpec(a: Value, n: nat, p: nat, col: seq<Value>)
    requires Rect(a, [n, p]) && forall i :: 0 <= i < |col| ==> col[i].Num?
    ensures var k := if n <= |col| then n else |col|;
            Rect(AppendColumn(a, col), [k, p + 1]) &&
            forall i, j :: 0 <= i < k && 0 <= j <= p ==>
              Entry(AppendColumn(a, col), [i, j]) == if j < p then Entry(a, [i, j]) else Entry(col[i], [])
  {
    var k := if n <= |col| then n else |col|;
    var v := AppendColumn(a, col);
    var s: seq<nat> := [n, p];
    forall i | 0 <= i < k
      ensures Rect(v.items[i], [p + 1])
      ensures forall j :: 0 <= j <= p ==> Entry(v, [i, j]) == if j < p then Entry(a, [i, j]) else Entry(col[i], [])
    {
      assert Rect(a.items[i], s[1..]) && s[1..] == [p];
      var row := a.items[i].items + [col[i]];
      assert v.items[i] == List(row);
      forall j | 0 <= j <= p
        ensures Entry(v, [i, j]) == if j < p then Entry(a, [i, j]) else Entry(col[i], [])
      {
        var t: seq<int> := [i, j];
        assert t[1..] == [j] && t[1..][1..] == [];
        assert Entry(v, t) == Entry(row[j], []);
        if j < p {
          assert Entry(a, t) == Entry(a.items[i].items[j], []);
        }
      }
    }
    var s2: seq<nat> := [k, p + 1];
    assert s2[1..] == [p + 1];
  }

  // ---------------------------------------------------------------------------
  // The tensor object

  class Tensor {
    /** The nested list of entries. */
    var m: Value
    /** The shape derived at construction; index assignment never updates it. */
    var shape: seq<nat>
    var nDims: nat
    /** The position of the last element `__next__` returned; -1 when at rest. */
    var iterCount: int

    /** The iteration cursor lies on an element of the top-level list, or at rest. */
    ghost predicate CursorOk()
      reads this
    {
      if m.List? then -1 <= iterCount < |m.items| else iterCount == -1
    }

    /** `m` is rectangular of shape `shape`, and the cursor is in range. */
    ghost predicate Wellformed()
      reads this
    {
      Rect(m, shape) && nDims == |shape| && CursorOk()
    }

    /** As `Tensor(m)` leaves a tensor: well formed, the shape read off `m`, the cursor at rest. */
    ghost predicate AtRest()
      reads this
    {
      Wellformed() && shape == ShapeOf(m) && iterCount == -1
    }

    constructor (v: Value)
      ensures m == v && shape == ShapeOf(v) && nDims == |shape| && iterCount == -1
      ensures Rect(v, ShapeOf(v)) ==> Wellformed()
    {
      m := v;
      var s := GetTensorShape(v);
      shape := s;
      nDims := |s|;
      iterCount := -1;
    }

    /** `get_tensor_shape`: append each level's length while descending into the first element. */
    static method GetTensorShape(v: Value) returns (r: seq<nat>)
      ensures r == ShapeOf(v)
    {
      r := [];
      var t: Option<Value> := Some(v);
      while t.Some? && t.value.List?
        invariant r + (if t.Some? then ShapeOf(t.value) else []) == ShapeOf(v)
        decreases if t.Some? then |ShapeOf(t.value)| + 1 else 0
      {
        var xs := t.value.items;
        r := r + [|xs|];
        if |xs| > 0 {
          t := Some(xs[0]);
        } else {
          t := None;
        }
      }
    }

    /** `__len__`: the length of the top-level list, which is the first size of the shape. */
    function Len(): (r: Result<nat>)
      reads this
      ensures m.Num? <==> r == Err(TypeError)
      ensures Wellformed() && |shape| > 0 ==> r == Ok(shape[0])
    {
      if m.List? then Ok(|m.items|) else Err(TypeError)
    }

    /** `__getitem__` with a tuple: an in-bounds index tuple reads that entry. */
    function Get(t: seq<int>): (r: Result<Value>)
      reads this
      ensures Wellformed() && InBounds(t, shape) ==> r == Ok(Num(Entry(m, t)))
    {
      assert Wellformed() && InBounds(t, shape) ==> GetPath(m, t) == Ok(Num(Entry(m, t))) by {
        if Wellformed() && InBounds(t, shape) {
          GetPathEntry(m, shape, t);
        }
      }
      GetPath(m, t)
    }

    /** `__setitem__` with a tuple: write `x` at the end of the path `t`. */
    method SetItem(t: seq<int>, x: Value) returns (r: Outcome)
      modifies this`m
      ensures SetPath(old(m), t, x).Ok? ==> r == Pass && m == SetPath(old(m), t, x).value
      ensures SetPath(old(m), t, x).Err? ==> r == Fail(SetPath(old(m), t, x).error) && m == old(m)
    {
      var res := SetPath(m, t, x);
      if res.Ok? {
        m := res.value;
        r := Pass;
      } else {
        r := Fail(res.error);
      }
    }

    /** `__setitem__` with a single index: `self.m[i] = x`. */
    method SetItemAt(i: int, x: Value) returns (r: Outcome)
      modifies this`m
      ensures Update(old(m), i, x).Ok? ==> r == Pass && m == Update(old(m), i, x).value
      ensures Update(old(m), i, x).Err? ==> r == Fail(Update(old(m), i, x).error) && m == old(m)
    {
      var res := Update(m, i, x);
      if res.Ok? {
        m := res.value;
        r := Pass;
      } else {
        r := Fail(res.error);
      }
    }

    /**
     * `__next__`: advance the cursor and return that element; past the last
     * element reset the cursor and raise StopIteration.
     */
    method Next() returns (r: Result<Value>)
      modifies this`iterCount
      ensures m.Num? ==> r == Err(TypeError) && iterCount == old(iterCount)
      ensures m.List? && old(iterCount) == |m.items| - 1 ==> r == Err(StopIteration) && iterCount == -1
      ensures m.List? && old(iterCount) != |m.items| - 1 ==> iterCount == old(iterCount) + 1 && r == Index(m, iterCount)
    {
      match m
      case Num(_) =>
        r := Err(TypeError);
      case List(xs) =>
        if iterCount == |xs| - 1 {
          iterCount := -1;
          r := Err(StopIteration);
        } else {
          iterCount := iterCount + 1;
          r := Index(m, iterCount);
        }
    }

    /**
     * Iterating the tensor to exhaustion (`for e in t`, `list(t)`, `xs.extend(t)`):
     * the elements after the cursor, after which the cursor is back at rest.
     */
    method Items() returns (r: Result<seq<Value>>)
      requires CursorOk()
      modifies this`iterCount
      ensures m.Num? ==> r == Err(TypeError) && iterCount == old(iterCount)
      ensures m.List? ==> r == Ok(m.items[old(iterCount) + 1..]) && iterCount == -1
    {
      var e := Next();
      if m.Num? {
        return Err(TypeError);
      }
      var acc: seq<Value> := [];
      while e.Ok?
        invariant m.List? && -1 <= iterCount < |m.items|
        invariant e.Ok? ==> iterCount >= 0 && acc + [e.value] == m.items[old(iterCount) + 1..iterCount + 1]
        invariant e.Err? ==> e.error == StopIteration && iterCount == -1 && acc == m.items[old(iterCount) + 1..]
        decreases if e.Ok? then |m.items| - iterCount else 0
      {
        acc := acc + [e.value];
        e := Next();
      }
      r := Ok(acc);
    }

    /** `T`: a fresh tensor of the reversed shape with the entry at `t` moved to `reverse(t)`. */
    method T() returns (r: Result<Tensor>)
      requires Wellformed()
      ensures r.Err? <==> |shape| == 0
      ensures r.Err? ==> r.error == IndexError
      ensures r.Ok? ==> fresh(r.value) && r.value.AtRest()
      ensures r.Ok? ==> r.value.m == Transposed(m, shape) && r.value.shape == Truncate(Reverse(shape))
    {
      var s, a := shape, m;
      var result :- Zeros(Reverse(s));
      TransposeStart(a, s);
      for k := 0 to Count(s)
        invariant result.shape == Truncate(Reverse(s)) && result.nDims == |result.shape| && result.iterCount == -1
        invariant PartlyTransposed(result.m, a, s, k)
      {
        var tup := Unflatten(k, s);
        TransposeStep(result.m, a, s, k);
        var value := GetPath(a, tup).value;
        var _ := result.SetItem(Reverse(tup), value);
      }
      TransposeDone(result.m, a, s);
      TransposedShape(a, s);
      return Ok(result);
    }

    /** `__add__`: equal shapes required; the point-wise sum. */
    method Add(other: Tensor) returns (r: Result<Tensor>)
      requires Wellformed() && other.Wellformed()
      ensures shape != other.shape ==> r == Err(ValueError)
      ensures shape == other.shape ==> (r.Err? <==> |shape| == 0)
      ensures shape == other.shape && |shape| == 0 ==> r == Err(IndexError)
      ensures r.Ok? ==> fresh(r.value) && r.value.AtRest()
      ensures r.Ok? ==> r.value.m == Combine(m, other.m, shape, Plus) && r.value.shape == Truncate(shape)
    {
      var same := AssertSameShape(shape, other.shape);
      if same.Fail? {
        return Err(same.error);
      }
      r := Pointwise(m, other.m, shape, Plus);
    }

    /** `__sub__`: equal shapes required; the point-wise difference. */
    method Sub(other: Tensor) returns (r: Result<Tensor>)
      requires Wellformed() && other.Wellformed()
      ensures shape != other.shape ==> r == Err(ValueError)
      ensures shape == other.shape ==> (r.Err? <==> |shape| == 0)
      ensures shape == other.shape && |shape| == 0 ==> r == Err(IndexError)
      ensures r.Ok? ==> fresh(r.value) && r.value.AtRest()
      ensures r.Ok? ==> r.value.m == Combine(m, other.m, shape, Minus) && r.value.shape == Truncate(shape)
    {
      var same := AssertSameShape(shape, other.shape);
      if same.Fail? {
        return Err(same.error);
      }
      r := Pointwise(m, other.m, shape, Minus);
    }

    /** `apply(f)`: the same shape with every entry `x` replaced by `f(x)`. */
    method Apply(f: int -> int) returns (r: Result<Tensor>)
      requires Wellformed()
      ensures r.Err? <==> |shape| == 0
      ensures r.Err? ==> r.error == IndexError
      ensures r.Ok? ==> fresh(r.value) && r.value.AtRest()
      ensures r.Ok? ==> r.value.m == Mapped(m, shape, f) && r.value.shape == Truncate(shape)
    {
      var a := m;
      r := Build(shape, t => f(Entry(a, t)));
    }

    /**
     * `__eq__`: false when the shapes differ, otherwise whether every indexed
     * entry agrees; for well-formed tensors, exactly structural equality.
     */
    method Eq(other: Tensor) returns (b: bool)
      requires Wellformed() && other.Wellformed()
      ensures b <==> shape == other.shape && forall t :: InBounds(t, shape) ==> Entry(m, t) == Entry(other.m, t)
      ensures b <==> shape == other.shape && m == other.m
    {
      if shape != other.shape {
        return false;
      }
      var s := shape;
      for k := 0 to Count(s)
        invariant forall t :: InBounds(t, s) && 0 <= Offset(t, s) < k ==> Entry(m, t) == Entry(other.m, t)
      {
        var tup := Unflatten(k, s);
        UnflattenOffset(k, s);
        GetPathEntry(m, s, tup);
        GetPathEntry(other.m, s, tup);
        if Get(tup) != other.Get(tup) {
          return false;
        }
        forall t | InBounds(t, s) && 0 <= Offset(t, s) < k + 1 ensures Entry(m, t) == Entry(other.m, t) {
          if Offset(t, s) == k {
            OffsetInjective(t, tup, s);
          }
        }
      }
      forall t | InBounds(t, s) ensures Entry(m, t) == Entry(other.m, t) {
        OffsetBound(t, s);
      }
      Extensionality(m, other.m, s);
      return true;
    }

    /** `__mul__`: a shape-`(1,)` operand is broadcast by `fill`, then the shapes must agree. */
    method Mul(other: Tensor) returns (r: Result<Tensor>)
      requires Wellformed() && other.Wellformed()
      ensures MulOperands(m, shape, other.m, other.shape).Err? ==>
                r == Err(MulOperands(m, shape, other.m, other.shape).error)
      ensures MulOperands(m, shape, other.m, other.shape).Ok? ==>
                var (a, b, s) := MulOperands(m, shape, other.m, other.shape).value;
                r.Ok? && fresh(r.value) && r.value.AtRest() &&
                r.value.m == Combine(a, b, s, Times) && r.value.shape == Truncate(s)
    {
      var left, right := this, other;
      if IsScalar(shape) {
        left :- Fill(Entry(m, [0]), other.shape);
      }
      if IsScalar(other.shape) {
        right :- Fill(Entry(other.m, [0]), left.shape);
      }
      :- AssertSameShape(left.shape, right.shape);
      r := Pointwise(left.m, right.m, left.shape, Times);
    }

    /**
     * `__matmul__`. Two vectors give the sum of products over `zip`, which
     * reads `other` through its cursor. Otherwise size 1 of `self` must equal
     * size 0 of `other`; a vector on the right is first promoted to a
     * one-column matrix by iterating it, and a one-column product is
     * flattened to a vector.
     */
    method MatMul(other: Tensor) returns (r: Result<Product>)
      requires Wellformed() && other.Wellformed()
      modifies other`iterCount
      ensures other.Wellformed() && -1 <= old(other.iterCount) && (other.m.List? ==> old(other.iterCount) < |other.m.items|)
      ensures nDims == 1 && other.nDims == 1 ==>
                var c := old(other.iterCount);
                var ys := other.m.items[c + 1..];
                r == Ok(Scalar(ZipDot(m.items, ys))) &&
                other.iterCount == (if |m.items| <= |ys| then c + |m.items| else -1)
      ensures r.Ok? ==> (r.value.Scalar? <==> nDims == 1 && other.nDims == 1)
      ensures r.Ok? && r.value.Matrix? ==> fresh(r.value.t) && r.value.t.AtRest()
      // `self.shape[1]` and `other.shape[0]` must exist and agree
      ensures !(nDims == 1 && other.nDims == 1) && (nDims < 2 || other.nDims == 0) ==>
                r == Err(IndexError) && other.iterCount == old(other.iterCount)
      ensures nDims >= 2 && other.nDims >= 1 && shape[1] != other.shape[0] ==> r == Err(ValueError)
      // only iterating `other` moves its cursor
      ensures other.nDims != 1 ==> other.iterCount == old(other.iterCount)
      ensures nDims >= 2 && other.nDims == 1 ==>
                other.iterCount == (if shape[1] == other.shape[0] then -1 else old(other.iterCount))
      // matrix times matrix
      ensures nDims == 2 && other.nDims == 2 && shape[1] == other.shape[0] ==>
                r.Ok? && r.value.Matrix? &&
                r.value.t.m == MatProduct(m, other.m, shape[0], shape[1], other.shape[1])
      // matrix times a vector at rest: promoted to a column, the product flattened
      ensures nDims == 2 && other.nDims == 1 && shape[1] == other.shape[0] && old(other.iterCount) == -1 ==>
                if shape[1] == 0 then r == Err(IndexError)
                else r.Ok? && r.value.Matrix? &&
                     r.value.t.m == MatProduct(m, ColumnOf(other.m.items), shape[0], shape[1], 1)
      // a vector part-way through an iteration promotes to too few rows
      ensures nDims >= 2 && other.nDims == 1 && shape[1] == other.shape[0] && old(other.iterCount) >= 0 && shape[0] > 0 ==>
                r == Err(IndexError)
      // an operand of rank 3 or more makes the first entry's sum fail
      ensures nDims >= 3 && other.nDims == 1 && shape[1] == other.shape[0] && old(other.iterCount) == -1 &&
              shape[0] > 0 && shape[1] > 0 ==>
                r == Err(TypeError)
      ensures nDims >= 2 && other.nDims >= 2 && (nDims >= 3 || other.nDims >= 3) && shape[1] == other.shape[0] &&
              shape[0] > 0 && shape[1] > 0 && other.shape[1] > 0 ==>
                r == Err(TypeError)
    {
      if nDims == 1 && other.nDims == 1 {
        // Both shapes have one size, so the length comparison never raises.
        var d := ZipSum(m.items, other);
        return Ok(Scalar(d));
      }
      var t :- MatrixMatMul(other);
      return Ok(Matrix(t));
    }

    /** `__matmul__` past the two-vector case: the matrix product, with a vector on the right promoted to a column. */
    method MatrixMatMul(other: Tensor) returns (r: Result<Tensor>)
      requires Wellformed() && other.Wellformed() && !(nDims == 1 && other.nDims == 1)
      modifies other`iterCount
      ensures other.Wellformed()
      ensures r.Ok? ==> fresh(r.value) && r.value.AtRest()
      // `self.shape[1]` and `other.shape[0]` must exist and agree
      ensures (nDims < 2 || other.nDims == 0) ==> r == Err(IndexError) && other.iterCount == old(other.iterCount)
      ensures nDims >= 2 && other.nDims >= 1 && shape[1] != other.shape[0] ==> r == Err(ValueError)
      // only iterating `other` moves its cursor
      ensures other.nDims != 1 ==> other.iterCount == old(other.iterCount)
      ensures nDims >= 2 && other.nDims == 1 ==>
                other.iterCount == (if shape[1] == other.shape[0] then -1 else old(other.iterCount))
      // matrix times matrix
      ensures nDims == 2 && other.nDims == 2 && shape[1] == other.shape[0] ==>
                r.Ok? && r.value.m == MatProduct(m, other.m, shape[0], shape[1], other.shape[1])
      // matrix times a vector at rest: promoted to a column, the product flattened
      ensures nDims == 2 && other.nDims == 1 && shape[1] == other.shape[0] && old(other.iterCount) == -1 ==>
                if shape[1] == 0 then r == Err(IndexError)
                else r.Ok? && r.value.m == MatProduct(m, ColumnOf(other.m.items), shape[0], shape[1], 1)
      // a vector part-way through an iteration promotes to too few rows
      ensures nDims >= 2 && other.nDims == 1 && shape[1] == other.shape[0] && old(other.iterCount) >= 0 && shape[0] > 0 ==>
                r == Err(IndexError)
      // an operand of rank 3 or more makes the first entry's sum fail
      ensures nDims >= 3 && other.nDims == 1 && shape[1] == other.shape[0] && old(other.iterCount) == -1 &&
              shape[0] > 0 && shape[1] > 0 ==>
                r == Err(TypeError)
      ensures nDims >= 2 && other.nDims >= 2 && (nDims >= 3 || other.nDims >= 3) && shape[1] == other.shape[0] &&
              shape[0] > 0 && shape[1] > 0 && other.shape[1] > 0 ==>
                r == Err(TypeError)
    {
      if |shape| < 2 || |other.shape| == 0 {
        return Err(IndexError);
      }
      if shape[1] != other.shape[0] {
        return Err(ValueError);
      }
      var left := new Tensor(m);
      if |other.shape| == 1 {
        r := PromotedProduct(left.m, shape, other);
      } else {
        r := MatrixProduct(left.m, shape, other);
      }
    }

    /**
     * `[[i] for i in self]` on a vector: its elements from the cursor on,
     * each wrapped in a one-element row; iterating leaves the cursor at rest.
     */
    method Column() returns (col: Tensor)
      requires Wellformed() && nDims == 1
      modifies this`iterCount
      ensures iterCount == -1 && m.List?
      ensures fresh(col) && col.AtRest() && col.m == ColumnOf(m.items[old(iterCount) + 1..])
      ensures col.shape == if old(iterCount) == |m.items| - 1 then [0] else [|m.items| - old(iterCount) - 1, 1]
    {
      ghost var c := iterCount;
      var items := Items();
      var ys := items.value;
      forall k | 0 <= k < |ys|
        ensures ys[k].Num?
      {
        assert ys[k] == m.items[c + 1 + k];
        assert Rect(ys[k], shape[1..]) && shape[1..] == [];
      }
      ColumnOfShape(ys);
      col := new Tensor(ColumnOf(ys));
    }

    /**
     * `v_append`: `x` must be a vector as long as this tensor's first size.
     * A vector gets `x[0]` appended; a matrix gets `x` as an extra last
     * column, read from `x`'s cursor on.
     */
    method VAppend(x: Tensor) returns (r: Result<Tensor>)
      requires Wellformed() && x.Wellformed()
      modifies x`iterCount
      ensures x.nDims != 1 ==> r == Err(ValueError)
      ensures x.nDims == 1 && nDims == 0 ==> r == Err(IndexError)
      ensures x.nDims == 1 && nDims > 0 && shape[0] != x.shape[0] ==> r == Err(ValueError)
      ensures !(x.nDims == 1 && nDims >= 2 && shape[0] == x.shape[0]) ==> x.iterCount == old(x.iterCount)
      ensures x.nDims == 1 && nDims == 1 && shape[0] == x.shape[0] ==>
                if shape[0] == 0 then r == Err(IndexError)
                else r.Ok? && fresh(r.value) && r.value.AtRest() && r.value.m == List(m.items + [x.m.items[0]])
      ensures x.nDims == 1 && nDims >= 2 && shape[0] == x.shape[0] ==>
                var c := old(x.iterCount);
                r.Ok? && fresh(r.value) && r.value.m == AppendColumn(m, x.m.items[c + 1..]) &&
                x.iterCount == (if c == -1 then |x.m.items| - 1 else -1) &&
                (nDims == 2 ==> r.value.Wellformed())
      ensures r.Ok? ==> r.value.shape == ShapeOf(r.value.m) && r.value.iterCount == -1
    {
      var vector := AssertNDims(x.nDims, 1);
      if vector.Fail? {
        return Err(vector.error);
      }
      if |shape| == 0 {
        return Err(IndexError);
      }
      if shape[0] != x.shape[0] {
        return Err(ValueError);
      }
      if nDims == 1 {
        var last :- Index(x.m, 0);
        assert Rect(last, x.shape[1..]) && x.shape[1..] == [];
        assert shape == [shape[0]];
        AppendEntryShape(m, shape[0], last);
        var v := new Tensor(List(m.items + [last]));
        return Ok(v);
      }
      ghost var c := x.iterCount;
      var result := ZipRows(m.items, x);
      if nDims == 2 {
        ghost var col := x.m.items[c + 1..];
        forall k | 0 <= k < |col|
          ensures col[k].Num?
        {
          assert Rect(x.m.items[c + 1 + k], x.shape[1..]) && x.shape[1..] == [];
        }
        assert shape == [shape[0], shape[1]];
        AppendColumnShape(m, shape[0], shape[1], col);
      }
      var v := new Tensor(List(result));
      return Ok(v);
    }
  }

  // ---------------------------------------------------------------------------
  // Factories and the shared fill loop

  /** `fill(x, shape)`: a fresh tensor of the given shape with every entry `x`. */
  method Fill(x: int, shape: seq<int>) returns (r: Result<Tensor>)
    ensures r.Err? <==> |shape| == 0
    ensures r.Err? ==> r.error == IndexError
    ensures r.Ok? ==> fresh(r.value) && r.value.AtRest()
    ensures r.Ok? ==> r.value.m == FillValue(x, Utils.Clamp(shape)) && r.value.shape == Truncate(Utils.Clamp(shape))
  {
    var v :- Utils.FillList(x, shape);
    FillValueSpec(x, Utils.Clamp(shape));
    ShapeOfRect(v, Utils.Clamp(shape));
    RectTruncate(v, Utils.Clamp(shape));
    var t := new Tensor(v);
    return Ok(t);
  }

  /** `zeros(shape)` is `fill(0, shape)`. */
  method Zeros(shape: seq<int>) returns (r: Result<Tensor>)
    ensures r.Err? <==> |shape| == 0
    ensures r.Err? ==> r.error == IndexError
    ensures r.Ok? ==> fresh(r.value) && r.value.AtRest()
    ensures r.Ok? ==> r.value.m == FillValue(0, Utils.Clamp(shape)) && r.value.shape == Truncate(Utils.Clamp(shape))
  {
    r := Fill(0, shape);
  }

  /** `ones(shape)` is `fill(1, shape)`. */
  method Ones(shape: seq<int>) returns (r: Result<Tensor>)
    ensures r.Err? <==> |shape| == 0
    ensures r.Err? ==> r.error == IndexError
    ensures r.Ok? ==> fresh(r.value) && r.value.AtRest()
    ensures r.Ok? ==> r.value.m == FillValue(1, Utils.Clamp(shape)) && r.value.shape == Truncate(Utils.Clamp(shape))
  {
    r := Fill(1, shape);
  }

  /** `ones(s)` and `zeros(s)` differ for every non-empty shape without a zero size. */
  lemma OnesAreNotZeros(s: seq<nat>)
    requires |s| > 0 && forall i :: 0 <= i < |s| ==> s[i] > 0
    ensures FillValue(1, s) != FillValue(0, s)
  {
    var t := seq(|s|, _ => 0);
    assert InBounds(t, s);
    FillValueSpec(1, s);
    FillValueSpec(0, s);
  }

  /**
   * The loop shared by the element-wise operations: `result = zeros(s)`, then
   * `result[tup] = f(tup)` for each index tuple of `s` in `index_iterator` order.
   */
  method Build(s: seq<nat>, f: seq<int> -> int) returns (r: Result<Tensor>)
    ensures r.Err? <==> |s| == 0
    ensures r.Err? ==> r.error == IndexError
    ensures r.Ok? ==> fresh(r.value) && r.value.AtRest()
    ensures r.Ok? ==> r.value.m == Tabulate(s, f) && r.value.shape == Truncate(s)
  {
    var result :- Zeros(s);
    BuildStart(s, f);
    for k := 0 to Count(s)
      invariant result.shape == Truncate(s) && result.nDims == |result.shape| && result.iterCount == -1
      invariant PartlyBuilt(result.m, s, f, k)
    {
      var tup := Unflatten(k, s);
      BuildStep(result.m, s, f, k);
      var _ := result.SetItem(tup, Num(f(tup)));
    }
    BuildDone(result.m, s, f);
    TabulateSpec(s, f);
    ShapeOfRect(result.m, s);
    return Ok(result);
  }

  /** After `k` steps of `Build`: the tuples of rank below `k` hold `f`, the rest still 0. */
  ghost predicate PartlyBuilt(v: Value, s: seq<nat>, f: seq<int> -> int, k: int) {
    Rect(v, s) && forall t :: InBounds(t, s) ==> Entry(v, t) == if 0 <= Offset(t, s) < k then f(t) else 0
  }

  lemma BuildStart(s: seq<nat>, f: seq<int> -> int)
    ensures PartlyBuilt(FillValue(0, Utils.Clamp(s)), s, f, 0)
  {
    FillValueSpec(0, s);
  }

  lemma BuildStep(v: Value, s: seq<nat>, f: seq<int> -> int, k: nat)
    requires PartlyBuilt(v, s, f, k) && k < Count(s) && |s| > 0
    ensures SetPath(v, Unflatten(k, s), Num(f(Unflatten(k, s)))).Ok?
    ensures PartlyBuilt(SetPath(v, Unflatten(k, s), Num(f(Unflatten(k, s)))).value, s, f, k + 1)
  {
    var tup := Unflatten(k, s);
    UnflattenOffset(k, s);
    SetPathEntry(v, s, tup, f(tup));
    var w := SetPath(v, tup, Num(f(tup))).value;
    forall t | InBounds(t, s) ensures Entry(w, t) == if 0 <= Offset(t, s) < k + 1 then f(t) else 0 {
      if t != tup && Offset(t, s) == k {
        OffsetInjective(t, tup, s);
      }
    }
  }

  lemma BuildDone(v: Value, s: seq<nat>, f: seq<int> -> int)
    requires PartlyBuilt(v, s, f, Count(s))
    ensures v == Tabulate(s, f) && Rect(v, Truncate(s))
  {
    TabulateSpec(s, f);
    forall t | InBounds(t, s) ensures Entry(v, t) == Entry(Tabulate(s, f), t) {
      OffsetBound(t, s);
    }
    Extensionality(v, Tabulate(s, f), s);
    RectTruncate(v, s);
  }

  /** After `k` steps of `T`: the reversed tuples of rank below `k` hold their entries, the rest still 0. */
  ghost predicate PartlyTransposed(v: Value, a: Value, s: seq<nat>, k: int) {
    Rect(v, Reverse(s)) && forall t :: InBounds(t, Reverse(s)) ==>
      Entry(v, t) == if 0 <= Offset(Reverse(t), s) < k then Entry(a, Reverse(t)) else 0
  }

  lemma TransposeStart(a: Value, s: seq<nat>)
    ensures PartlyTransposed(FillValue(0, Utils.Clamp(Reverse(s))), a, s, 0)
  {
    FillValueSpec(0, Reverse(s));
  }

  lemma TransposeStep(v: Value, a: Value, s: seq<nat>, k: nat)
    requires PartlyTransposed(v, a, s, k) && Rect(a, s) && k < Count(s) && |s| > 0
    ensures GetPath(a, Unflatten(k, s)) == Ok(Num(Entry(a, Unflatten(k, s))))
    ensures SetPath(v, Reverse(Unflatten(k, s)), Num(Entry(a, Unflatten(k, s)))).Ok?
    ensures PartlyTransposed(SetPath(v, Reverse(Unflatten(k, s)), Num(Entry(a, Unflatten(k, s)))).value, a, s, k + 1)
  {
    var tup := Unflatten(k, s);
    var rs := Reverse(s);
    UnflattenOffset(k, s);
    GetPathEntry(a, s, tup);
    ReverseInBounds(tup, s);
    var x := Entry(a, tup);
    SetPathEntry(v, rs, Reverse(tup), x);
    var w := SetPath(v, Reverse(tup), Num(x)).value;
    ReverseReverse(tup);
    forall t | InBounds(t, rs)
      ensures Entry(w, t) == if 0 <= Offset(Reverse(t), s) < k + 1 then Entry(a, Reverse(t)) else 0
    {
      ReverseInBounds(t, rs);
      ReverseReverse(s);
      ReverseReverse(t);
      if t != Reverse(tup) && Offset(Reverse(t), s) == k {
        OffsetInjective(Reverse(t), tup, s);
      }
    }
  }

  lemma TransposeDone(v: Value, a: Value, s: seq<nat>)
    requires PartlyTransposed(v, a, s, Count(s))
    ensures v == Transposed(a, s) && Rect(v, Truncate(Reverse(s)))
  {
    var rs := Reverse(s);
    TransposedSpec(a, s);
    ReverseReverse(s);
    forall t | InBounds(t, rs) ensures Entry(v, t) == Entry(Transposed(a, s), t) {
      ReverseInBounds(t, rs);
      ReverseReverse(t);
      OffsetBound(Reverse(t), s);
    }
    Extensionality(v, Transposed(a, s), rs);
    RectTruncate(v, rs);
  }

  /**
   * `sum([i * j for i, j in zip(xs, other)])`: `other` is read from its cursor
   * on, and `zip` stops at whichever side runs out first.
   */
  method ZipSum(xs: seq<Value>, other: Tensor) returns (d: int)
    requires other.Wellformed() && other.m.List?
    modifies other`iterCount
    ensures var c := old(other.iterCount);
            var ys := other.m.items[c + 1..];
            d == ZipDot(xs, ys) && other.iterCount == (if |xs| <= |ys| then c + |xs| else -1)
  {
    ghost var c := other.iterCount;
    ghost var ys := other.m.items[c + 1..];
    var k := 0;
    d := 0;
    while k < |xs|
      invariant 0 <= k <= |xs| && k <= |ys|
      invariant other.iterCount == c + k < |other.m.items|
      invariant d == DotPrefix(xs, ys, k)
      decreases |xs| - k
    {
      var e := other.Next();
      if e.Err? {
        break;
      }
      d := d + Entry(xs[k], []) * Entry(e.value, []);
      k := k + 1;
    }
  }

  /**
   * The matrix branch of `__matmul__` once the right operand `col` has at
   * least the rank of a vector: allocate `(M, P)` zeros, fill each entry with
   * its sum of products, and flatten a one-column result.
   */
  method MatrixProduct(a: Value, sa: seq<nat>, col: Tensor) returns (r: Result<Tensor>)
    requires Rect(a, sa) && |sa| >= 2 && col.Wellformed()
    ensures |col.shape| < 2 ==> r == Err(IndexError)
    ensures |col.shape| >= 2 ==>
              var M, n, P := sa[0], sa[1], col.shape[1];
              if M > 0 && P > 0 && n > 0 && col.shape[0] < n then r == Err(IndexError)
              else if M > 0 && P > 0 && n > 0 && (|sa| > 2 || |col.shape| > 2) then r == Err(TypeError)
              else r.Ok? && fresh(r.value) && r.value.AtRest() && r.value.m == MatProduct(a, col.m, M, n, P)
  {
    if |col.shape| < 2 {
      return Err(IndexError);
    }
    var M, n, P := sa[0], sa[1], col.shape[1];
    if M > 0 && P > 0 && n > 0 {
      // the first entry computed, at (0, 0), reads rows 0 .. n - 1 of the right operand
      if |col.m.items| < n {
        return Err(IndexError);
      }
      if |sa| > 2 || |col.shape| > 2 {
        return Err(TypeError);
      }
    }
    var b := col.m;
    var built := Build([M, P], t => DotAt(a, b, Coord(t, 0), Coord(t, 1), n));
    var result := built.value;
    if result.nDims == 2 && result.shape[1] == 1 {
      var f := FlattenColumn(a, b, M, n, result);
      return Ok(f);
    }
    return Ok(result);
  }

  /**
   * The matrix branch of `__matmul__` with a vector `v` on the right: `v`
   * is promoted to a column by iterating it from its cursor on, which
   * leaves it at rest.
   */
  method PromotedProduct(a: Value, sa: seq<nat>, v: Tensor) returns (r: Result<Tensor>)
    requires Rect(a, sa) && |sa| >= 2 && v.Wellformed() && v.nDims == 1 && sa[1] == v.shape[0]
    modifies v`iterCount
    ensures v.Wellformed() && v.iterCount == -1
    ensures r.Ok? ==> fresh(r.value) && r.value.AtRest()
    ensures |sa| == 2 && old(v.iterCount) == -1 ==>
              if sa[1] == 0 then r == Err(IndexError)
              else r.Ok? && r.value.m == MatProduct(a, ColumnOf(v.m.items), sa[0], sa[1], 1)
    ensures old(v.iterCount) >= 0 && sa[0] > 0 ==> r == Err(IndexError)
    ensures |sa| >= 3 && old(v.iterCount) == -1 && sa[0] > 0 && sa[1] > 0 ==> r == Err(TypeError)
  {
    ghost var c := v.iterCount;
    var col := v.Column();
    assert c == -1 ==> v.m.items[c + 1..] == v.m.items;
    r := MatrixProduct(a, sa, col);
  }

  /**
   * The last step of the matrix branch of `__matmul__`: an `(M, 1)` product
   * becomes the vector of its column, `[row[0] for row in result]`.
   */
  method FlattenColumn(a: Value, b: Value, M: nat, n: nat, result: Tensor) returns (f: Tensor)
    requires result.Wellformed() && result.iterCount == -1
    requires result.m == Tabulate([M, 1], t => DotAt(a, b, Coord(t, 0), Coord(t, 1), n))
    modifies result`iterCount
    ensures fresh(f) && f.AtRest() && f.m == Tabulate([M], t => DotAt(a, b, Coord(t, 0), 0, n))
  {
    var drained := result.Items();
    var rows := drained.value;
    var flat: seq<Value> := [];
    for i := 0 to |rows|
      invariant flat == seq(i, k requires 0 <= k < i => Num(DotAt(a, b, k, 0, n)))
    {
      TabulateColumnRow(M, t => DotAt(a, b, Coord(t, 0), Coord(t, 1), n), i);
      assert rows[i] == List([Num(DotAt(a, b, i, 0, n))]);
      flat := flat + rows[i].items;
    }
    TabulateVector(M, t => DotAt(a, b, Coord(t, 0), 0, n));
    f := new Tensor(List(flat));
  }

  /**
   * The `zip(self.m, x)` loop of `v_append`: each row of `rows` extended by
   * the next element of `x`, until either side runs out.
   */
  method ZipRows(rows: seq<Value>, x: Tensor) returns (result: seq<Value>)
    requires x.Wellformed() && x.m.List?
    modifies x`iterCount
    ensures var c := old(x.iterCount);
            List(result) == AppendColumn(List(rows), x.m.items[c + 1..]) &&
            x.iterCount == (if |rows| <= |x.m.items| - c - 1 then c + |rows| else -1)
  {
    ghost var c := x.iterCount;
    ghost var col := x.m.items[c + 1..];
    result := [];
    var i := 0;
    while i < |rows|
      invariant 0 <= i <= |rows| && i <= |col|
      invariant x.iterCount == c + i < |x.m.items|
      invariant |result| == i && forall k :: 0 <= k < i ==> result[k] == List(Elements(rows[k]) + [col[k]])
      decreases |rows| - i
    {
      var e := x.Next();
      if e.Err? {
        assert i == |col| && x.iterCount == -1;
        break;
      }
      assert e.value == col[i];
      result := result + [List(Elements(rows[i]) + [e.value])];
      i := i + 1;
    }
    assert i == (if |rows| <= |col| then |rows| else |col|);
    assert x.iterCount == (if |rows| <= |col| then c + |rows| else -1);
    AppendColumnRows(rows, col, result);
  }

  /** Rows built one by one, as many as the shorter side, make up `AppendColumn`. */
  lemma AppendColumnRows(rows: seq<Value>, col: seq<Value>, result: seq<Value>)
    requires |result| == (if |rows| <= |col| then |rows| else |col|)
    requires forall k :: 0 <= k < |result| ==> result[k] == List(Elements(rows[k]) + [col[k]])
    ensures List(result) == AppendColumn(List(rows), col)
  {
  }

  /** A vector of numbers with one more number appended is a vector one longer. */
  lemma AppendEntryShape(a: Value, n: nat, last: Value)
    requires Rect(a, [n]) && last.Num?
    ensures Rect(List(a.items + [last]), [n + 1]) && ShapeOf(List(a.items + [last])) == [n + 1]
  {
    var s: seq<nat> := [n];
    forall k | 0 <= k < n
      ensures a.items[k].Num?
    {
      assert Rect(a.items[k], s[1..]) && s[1..] == [];
    }
    assert Rect(List(a.items + [last]), [n + 1]);
    ShapeOfRect(List(a.items + [last]), [n + 1]);
  }

  /** Appending a column of numbers to a matrix gives a matrix whose derived shape fits it. */
  lemma AppendColumnShape(a: Value, n: nat, p: nat, col: seq<Value>)
    requires Rect(a, [n, p]) && forall i :: 0 <= i < |col| ==> col[i].Num?
    ensures Rect(AppendColumn(a, col), ShapeOf(AppendColumn(a, col)))
  {
    var k := if n <= |col| then n else |col|;
    AppendColumnSpec(a, n, p, col);
    ShapeOfRect(AppendColumn(a, col), [k, p + 1]);
    RectTruncate(AppendColumn(a, col), [k, p + 1]);
  }

  /** Row `i` of an `(M, 1)` tabulation holds the single entry at `(i, 0)`. */
  lemma TabulateColumnRow(M: nat, f: seq<int> -> int, i: nat)
    requires i < M
    ensures Tabulate([M, 1], f).List? && |Tabulate([M, 1], f).items| == M
    ensures Tabulate([M, 1], f).items[i] == List([Num(f([i, 0]))])
  {
    var s: seq<nat> := [M, 1];
    assert s[1..] == [1];
    var row := Tabulate([1], t => f([i] + t));
    assert Tabulate([M, 1], f).items[i] == row;
    assert row.items[0] == Num(f([i] + ([0] + [])));
    assert [i] + ([0] + []) == [i, 0];
  }

  /** A tabulation of shape `(M,)` lists its entries in order. */
  lemma TabulateVector(M: nat, f: seq<int> -> int)
    ensures Tabulate([M], f) == List(seq(M, i requires 0 <= i < M => Num(f([i]))))
  {
    var v := Tabulate([M], f);
    forall i | 0 <= i < M
      ensures v.items[i] == Num(f([i]))
    {
      var s: seq<nat> := [M];
      assert v.items[i] == Tabulate(s[1..], t => f([i] + t));
      assert [i] + [] == [i];
    }
  }

  /** The element-wise loop of `__add__`, `__sub__` and `__mul__` over operands of shape `s`. */
  method Pointwise(a: Value, b: Value, s: seq<nat>, op: Op) returns (r: Result<Tensor>)
    ensures r.Err? <==> |s| == 0
    ensures r.Err? ==> r.error == IndexError
    ensures r.Ok? ==> fresh(r.value) && r.value.AtRest()
    ensures r.Ok? ==> r.value.m == Combine(a, b, s, op) && r.value.shape == Truncate(s)
  {
    r := Build(s, t => op.Eval(Entry(a, t), Entry(b, t)));
  }
}
