/**
 * The nested Python lists that hold a tensor's entries, Python's indexing
 * rules on them, and the index tuples that `itertools.product` enumerates.
 */
module Values {
  import opened Wrappers

  /** A Python value stored in a tensor: a number or a (possibly nested) list. */
  datatype Value = Num(n: int) | List(items: seq<Value>)

  /** `[v for i in range(n)]`, where each copy is independent (values do not alias). */
  function Repeat(v: Value, n: nat): (r: seq<Value>)
    ensures |r| == n && forall i :: 0 <= i < n ==> r[i] == v
  {
    seq(n, _ => v)
  }

  function Reverse<T>(s: seq<T>): (r: seq<T>)
    ensures |r| == |s|
    ensures forall i :: 0 <= i < |s| ==> r[i] == s[|s| - 1 - i]
  {
    if |s| == 0 then [] else Reverse(s[1..]) + [s[0]]
  }

  lemma ReverseReverse<T>(s: seq<T>)
    ensures Reverse(Reverse(s)) == s
  {
  }

  // ---------------------------------------------------------------------------
  // Shapes

  /**
   * The shape the constructor derives: the length of each level, measured on the
   * first element only; an empty list contributes 0 and stops, a number stops.
   */
  function ShapeOf(v: Value): seq<nat> {
    match v
    case Num(_) => []
    case List(xs) => if |xs| == 0 then [0] else [|xs|] + ShapeOf(xs[0])
  }

  /** `s` up to and including its first zero: what `ShapeOf` sees of a rectangular value of shape `s`. */
  function Truncate(s: seq<nat>): (r: seq<nat>)
    ensures |r| <= |s| && r == s[..|r|]
    ensures (forall i :: 0 <= i < |s| - 1 ==> s[i] > 0) ==> r == s
  {
    if |s| == 0 then [] else if s[0] == 0 then [0] else [s[0]] + Truncate(s[1..])
  }

  /** `v` is a rectangular nested list of exactly shape `s`. */
  predicate Rect(v: Value, s: seq<nat>)
    decreases |s|
  {
    if |s| == 0 then v.Num?
    else v.List? && |v.items| == s[0] && forall i :: 0 <= i < |v.items| ==> Rect(v.items[i], s[1..])
  }

  /** A rectangular value of shape `s` has derived shape `s`, cut after its first zero dimension. */
  lemma {:induction false} ShapeOfRect(v: Value, s: seq<nat>)
    requires Rect(v, s)
    ensures ShapeOf(v) == Truncate(s)
    decreases |s|
  {
    if |s| > 0 && s[0] > 0 {
      ShapeOfRect(v.items[0], s[1..]);
    }
  }

  /** A rectangular value of shape `s` is also rectangular for `s` cut after its first zero. */
  lemma {:induction false} RectTruncate(v: Value, s: seq<nat>)
    requires Rect(v, s)
    ensures Rect(v, Truncate(s))
    decreases |s|
  {
    if |s| > 0 && s[0] > 0 {
      forall i | 0 <= i < |v.items| ensures Rect(v.items[i], Truncate(s)[1..]) {
        RectTruncate(v.items[i], s[1..]);
      }
    }
  }

  // ---------------------------------------------------------------------------
  // Index tuples

  /** `t` is an index tuple of the shape `s` (what `index_iterator` yields). */
  predicate InBounds(t: seq<int>, s: seq<nat>) {
    |t| == |s| && forall i :: 0 <= i < |s| ==> 0 <= t[i] < s[i]
  }

  /** Reversing an index tuple of `s` gives an index tuple of the reversed shape. */
  lemma ReverseInBounds(t: seq<int>, s: seq<nat>)
    requires InBounds(t, s)
    ensures InBounds(Reverse(t), Reverse(s))
  {
  }

  /** The number of index tuples of shape `s`. */
  function Count(s: seq<nat>): nat {
    if |s| == 0 then 1 else s[0] * Count(s[1..])
  }

  /** The row-major rank of `t` among the index tuples of `s`. */
  function Offset(t: seq<int>, s: seq<nat>): int
    decreases |s|
  {
    if |s| == 0 || |t| == 0 then 0 else t[0] * Count(s[1..]) + Offset(t[1..], s[1..])
  }

  /** The `k`-th index tuple of `s` in lexicographic order. */
  function Unflatten(k: nat, s: seq<nat>): seq<int>
    decreases |s|
  {
    if |s| == 0 then []
    else
      var c := Count(s[1..]);
      if c == 0 then [0] + Unflatten(0, s[1..]) else [k / c] + Unflatten(k % c, s[1..])
  }

  /** The index tuples in the order `itertools.product(*[range(i) for i in shape])` yields them. */
  function IndexTuples(s: seq<nat>): (r: seq<seq<int>>)
    ensures |r| == Count(s)
  {
    seq(Count(s), k requires 0 <= k < Count(s) => Unflatten(k, s))
  }

  lemma MulMonotone(a: int, b: int, c: nat)
    requires a <= b
    ensures a * c <= b * c
  {
    assert b * c - a * c == (b - a) * c;
  }

  lemma MulStep(a: int, b: int, c: nat)
    requires a < b
    ensures a * c + c <= b * c
  {
    assert b * c - a * c == (b - a) * c;
    MulMonotone(1, b - a, c);
  }

  /** Euclidean division of `q * c + r` by `c` gives back `q` and `r`. */
  lemma DivModUnique(q: int, r: int, c: int)
    requires 0 <= r < c
    ensures (q * c + r) / c == q && (q * c + r) % c == r
  {
    var n := q * c + r;
    var q', r' := n / c, n % c;
    assert n == q' * c + r';
    if q' > q {
      MulStep(q, q', c);
      assert false;
    } else if q' < q {
      MulStep(q', q, c);
      assert false;
    }
  }

  /** A number below `a * c` has a quotient by `c` below `a`. */
  lemma DivBelow(k: nat, a: nat, c: nat)
    requires 0 < c && k < a * c
    ensures 0 <= k / c < a
  {
    var q := k / c;
    assert k == q * c + k % c;
    if q >= a {
      MulMonotone(a, q, c);
      assert false;
    }
  }

  /** Offsets of in-bounds tuples lie in `[0, Count(s))`. */
  lemma {:induction false} OffsetBound(t: seq<int>, s: seq<nat>)
    requires InBounds(t, s)
    ensures 0 <= Offset(t, s) < Count(s)
    decreases |s|
  {
    if |s| > 0 {
      var c := Count(s[1..]);
      OffsetBound(t[1..], s[1..]);
      MulStep(t[0], s[0], c);
      MulMonotone(0, t[0], c);
    }
  }

  /** `Unflatten` yields an index tuple, and `Offset` undoes it. */
  lemma {:induction false} UnflattenOffset(k: nat, s: seq<nat>)
    requires k < Count(s)
    ensures InBounds(Unflatten(k, s), s) && Offset(Unflatten(k, s), s) == k
    decreases |s|
  {
    if |s| > 0 {
      var c := Count(s[1..]);
      assert Count(s) == s[0] * c;
      if c == 0 {
        assert false;
      }
      var q, r := k / c, k % c;
      DivBelow(k, s[0], c);
      UnflattenOffset(r, s[1..]);
      var u := Unflatten(k, s);
      assert u == [q] + Unflatten(r, s[1..]);
      assert u[1..] == Unflatten(r, s[1..]);
      assert Offset(u, s) == q * c + r;
    }
  }

  /** `Offset` is a bijection from the index tuples of `s` onto `[0, Count(s))`. */
  lemma {:induction false} OffsetUnflatten(t: seq<int>, s: seq<nat>)
    requires InBounds(t, s)
    ensures 0 <= Offset(t, s) && Unflatten(Offset(t, s), s) == t
    decreases |s|
  {
    OffsetBound(t, s);
    if |s| > 0 {
      var c := Count(s[1..]);
      OffsetBound(t[1..], s[1..]);
      var o := Offset(t[1..], s[1..]);
      DivModUnique(t[0], o, c);
      OffsetUnflatten(t[1..], s[1..]);
      assert [t[0]] + t[1..] == t;
    }
  }

  /** Distinct index tuples have distinct offsets. */
  lemma OffsetInjective(t1: seq<int>, t2: seq<int>, s: seq<nat>)
    requires InBounds(t1, s) && InBounds(t2, s) && Offset(t1, s) == Offset(t2, s)
    ensures t1 == t2
  {
    OffsetUnflatten(t1, s);
    OffsetUnflatten(t2, s);
  }

  /**
   * `index_iterator` enumerates every index tuple of `s` exactly once: each
   * element is in bounds, no two positions hold the same tuple, and every
   * in-bounds tuple occurs (at position `Offset(t, s)`).
   */
  lemma IndexTuplesEnumerate(s: seq<nat>)
    ensures forall k :: 0 <= k < Count(s) ==> InBounds(IndexTuples(s)[k], s)
    ensures forall j, k :: 0 <= j < k < Count(s) ==> IndexTuples(s)[j] != IndexTuples(s)[k]
    ensures forall t :: InBounds(t, s) ==> 0 <= Offset(t, s) < Count(s) && IndexTuples(s)[Offset(t, s)] == t
  {
    forall k | 0 <= k < Count(s) ensures InBounds(IndexTuples(s)[k], s) {
      UnflattenOffset(k, s);
    }
    forall j, k | 0 <= j < k < Count(s) ensures IndexTuples(s)[j] != IndexTuples(s)[k] {
      UnflattenOffset(j, s);
      UnflattenOffset(k, s);
    }
    forall t | InBounds(t, s) ensures 0 <= Offset(t, s) < Count(s) && IndexTuples(s)[Offset(t, s)] == t {
      OffsetBound(t, s);
      OffsetUnflatten(t, s);
    }
  }
  // ---------------------------------------------------------------------------
  // Entries

  /** The number at index tuple `t` of `v` (0 where `t` does not lead to a number). */
  function Entry(v: Value, t: seq<int>): int
    decreases |t|
  {
    match v
    case Num(n) => if |t| == 0 then n else 0
    case List(xs) => if |t| > 0 && 0 <= t[0] < |xs| then Entry(xs[t[0]], t[1..]) else 0
  }

  /** The value of shape `s` whose entry at every index tuple `t` is `f(t)`. */
  function Tabulate(s: seq<nat>, f: seq<int> -> int): Value
    decreases |s|
  {
    if |s| == 0 then Num(f([]))
    else List(seq(s[0], i => Tabulate(s[1..], t => f([i] + t))))
  }

  lemma {:induction false} TabulateRect(s: seq<nat>, f: seq<int> -> int)
    ensures Rect(Tabulate(s, f), s)
    decreases |s|
  {
    if |s| > 0 {
      forall i | 0 <= i < s[0] ensures Rect(Tabulate(s, f).items[i], s[1..]) {
        TabulateRect(s[1..], t => f([i] + t));
      }
    }
  }

  lemma {:induction false} TabulateEntry(s: seq<nat>, f: seq<int> -> int, t: seq<int>)
    requires InBounds(t, s)
    ensures Entry(Tabulate(s, f), t) == f(t)
    decreases |s|
  {
    if |s| > 0 {
      var g := u => f([t[0]] + u);
      assert Tabulate(s, f).items[t[0]] == Tabulate(s[1..], g);
      TabulateEntry(s[1..], g, t[1..]);
      assert [t[0]] + t[1..] == t;
    }
  }

  /** A tabulated value has shape `s` and entry `f(t)` at every index tuple `t`. */
  lemma TabulateSpec(s: seq<nat>, f: seq<int> -> int)
    ensures Rect(Tabulate(s, f), s)
    ensures forall t :: InBounds(t, s) ==> Entry(Tabulate(s, f), t) == f(t)
  {
    TabulateRect(s, f);
    forall t | InBounds(t, s) ensures Entry(Tabulate(s, f), t) == f(t) {
      TabulateEntry(s, f, t);
    }
  }

  /** Two rectangular values of one shape with the same entries are the same value. */
  lemma {:induction false} Extensionality(a: Value, b: Value, s: seq<nat>)
    requires Rect(a, s) && Rect(b, s)
    requires forall t :: InBounds(t, s) ==> Entry(a, t) == Entry(b, t)
    ensures a == b
    decreases |s|
  {
    if |s| == 0 {
      assert InBounds([], s);
    } else {
      forall i | 0 <= i < s[0] ensures a.items[i] == b.items[i] {
        forall u | InBounds(u, s[1..]) ensures Entry(a.items[i], u) == Entry(b.items[i], u) {
          var t := [i] + u;
          assert t[0] == i && t[1..] == u;
          assert InBounds(t, s);
        }
        Extensionality(a.items[i], b.items[i], s[1..]);
      }
    }
  }

  /** `fill(x, s)` as a value: `x` repeated along every dimension. */
  function FillValue(x: int, s: seq<nat>): Value
    decreases |s|
  {
    if |s| == 0 then Num(x) else List(Repeat(FillValue(x, s[1..]), s[0]))
  }

  /** A filled value has shape `s` and every entry equal to `x`. */
  lemma {:induction false} FillValueSpec(x: int, s: seq<nat>)
    ensures Rect(FillValue(x, s), s)
    ensures forall t :: InBounds(t, s) ==> Entry(FillValue(x, s), t) == x
    decreases |s|
  {
    if |s| > 0 {
      FillValueSpec(x, s[1..]);
      forall t | InBounds(t, s) ensures Entry(FillValue(x, s), t) == x {
        assert InBounds(t[1..], s[1..]);
      }
    }
  }

  /** One entry of a filled value. */
  lemma {:induction false} FillValueEntry(x: int, s: seq<nat>, t: seq<int>)
    requires InBounds(t, s)
    ensures Entry(FillValue(x, s), t) == x
    decreases |s|
  {
    if |s| > 0 {
      FillValueEntry(x, s[1..], t[1..]);
    }
  }

  // ---------------------------------------------------------------------------
  // Python indexing

  /** Python's `xs[i]`, where a negative `i` counts from the end. */
  function Index(v: Value, i: int): (r: Result<Value>)
    ensures v.Num? ==> r == Err(TypeError)
    ensures v.List? && 0 <= i < |v.items| ==> r == Ok(v.items[i])
    ensures v.List? && -|v.items| <= i < 0 ==> r == Ok(v.items[|v.items| + i])
    ensures v.List? && !(-|v.items| <= i < |v.items|) ==> r == Err(IndexError)
  {
    match v
    case Num(_) => Err(TypeError)
    case List(xs) =>
      if 0 <= i < |xs| then Ok(xs[i])
      else if -|xs| <= i < 0 then Ok(xs[|xs| + i])
      else Err(IndexError)
  }

  /** Python's `xs[i] = x`. */
  function Update(v: Value, i: int, x: Value): (r: Result<Value>)
    ensures v.Num? ==> r == Err(TypeError)
    ensures v.List? && 0 <= i < |v.items| ==> r == Ok(List(v.items[i := x]))
    ensures v.List? && -|v.items| <= i < 0 ==> r == Ok(List(v.items[|v.items| + i := x]))
    ensures v.List? && !(-|v.items| <= i < |v.items|) ==> r == Err(IndexError)
  {
    match v
    case Num(_) => Err(TypeError)
    case List(xs) =>
      if 0 <= i < |xs| then Ok(List(xs[i := x]))
      else if -|xs| <= i < 0 then Ok(List(xs[|xs| + i := x]))
      else Err(IndexError)
  }

  /** `Tensor.__getitem__` with a tuple: index one level per component. */
  function GetPath(v: Value, t: seq<int>): Result<Value>
    decreases |t|
  {
    if |t| == 0 then Ok(v)
    else
      var w :- Index(v, t[0]);
      GetPath(w, t[1..])
  }

  /**
   * `Tensor.__setitem__` with a tuple: descend along all but the last
   * component, then assign at the last one (an empty tuple has no last one).
   */
  function SetPath(v: Value, t: seq<int>, x: Value): Result<Value>
    decreases |t|
  {
    if |t| == 0 then Err(IndexError)
    else if |t| == 1 then Update(v, t[0], x)
    else
      var w :- Index(v, t[0]);
      var w' :- SetPath(w, t[1..], x);
      Update(v, t[0], w')
  }

  /** Reading an index tuple of a rectangular value gives its entry. */
  lemma {:induction false} GetPathEntry(v: Value, s: seq<nat>, t: seq<int>)
    requires Rect(v, s) && InBounds(t, s)
    ensures GetPath(v, t) == Ok(Num(Entry(v, t)))
    decreases |s|
  {
    if |s| > 0 {
      GetPathEntry(v.items[t[0]], s[1..], t[1..]);
    }
  }

  /**
   * Writing a number at an index tuple of a rectangular value succeeds, keeps
   * the shape, changes that entry and no other.
   */
  lemma {:induction false} SetPathEntry(v: Value, s: seq<nat>, u: seq<int>, x: int)
    requires Rect(v, s) && InBounds(u, s) && |s| > 0
    ensures SetPath(v, u, Num(x)).Ok?
    ensures Rect(SetPath(v, u, Num(x)).value, s)
    ensures Entry(SetPath(v, u, Num(x)).value, u) == x
    ensures forall t :: InBounds(t, s) && t != u ==> Entry(SetPath(v, u, Num(x)).value, t) == Entry(v, t)
    decreases |s|
  {
    var i := u[0];
    if |s| == 1 {
      var w := SetPath(v, u, Num(x)).value;
      assert w == List(v.items[i := Num(x)]);
      forall t | InBounds(t, s) && t != u ensures Entry(w, t) == Entry(v, t) {
        assert t[0] != i by { assert t == [t[0]] && u == [i]; }
      }
    } else {
      SetPathEntry(v.items[i], s[1..], u[1..], x);
      var w' := SetPath(v.items[i], u[1..], Num(x)).value;
      var w := SetPath(v, u, Num(x)).value;
      assert w == List(v.items[i := w']);
      forall t | InBounds(t, s) && t != u ensures Entry(w, t) == Entry(v, t) {
        if t[0] == i {
          assert t[1..] != u[1..] by { assert t == [t[0]] + t[1..] && u == [i] + u[1..]; }
        }
      }
    }
  }
}
