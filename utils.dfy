/** The nested-list construction behind `fill`, `zeros` and `ones`. */
module Utils {
  import opened Wrappers
  import opened Values

  /** The length of `range(n)`: a negative size gives an empty range. */
  function RangeLen(n: int): nat {
    if n < 0 then 0 else n
  }

  /** A shape with every size replaced by the length of its `range`. */
  function Clamp(shape: seq<int>): (r: seq<nat>)
    ensures |r| == |shape|
    ensures forall i :: 0 <= i < |shape| ==> r[i] == RangeLen(shape[i])
    ensures (forall i :: 0 <= i < |shape| ==> shape[i] >= 0) ==> r == shape
  {
    seq(|shape|, i requires 0 <= i < |shape| => RangeLen(shape[i]))
  }

  /**
   * The list `fill(x, shape)` wraps in a tensor: `[x] * shape[-1]`, then each
   * earlier size in turn repeats (deep copies of) the list built so far. An
   * empty shape fails at `rev_shape[0]`.
   */
  method FillList(x: int, shape: seq<int>) returns (r: Result<Value>)
    ensures r.Err? <==> |shape| == 0
    ensures r.Err? ==> r.error == IndexError
    ensures r.Ok? ==> r.value == FillValue(x, Clamp(shape))
  {
    if |shape| == 0 {
      return Err(IndexError);
    }
    var revShape := Reverse(shape);
    var c := Clamp(shape);
    var n := |shape|;
    var result := List(Repeat(Num(x), RangeLen(revShape[0])));
    assert c[n - 1..][1..] == [];
    for i := 1 to n
      invariant result == FillValue(x, c[n - i..])
    {
      assert c[n - 1 - i..][1..] == c[n - i..];
      result := List(Repeat(result, RangeLen(revShape[i])));
    }
    assert c[0..] == c;
    return Ok(result);
  }

  /**
   * What `fill` builds for a non-empty shape has that shape (sizes clamped at 0),
   * cut after the first zero size, and every entry equal to `x`.
   */
  lemma FillListShape(x: int, shape: seq<int>)
    requires |shape| > 0
    ensures ShapeOf(FillValue(x, Clamp(shape))) == Truncate(Clamp(shape))
    ensures forall t :: InBounds(t, Clamp(shape)) ==> Entry(FillValue(x, Clamp(shape)), t) == x
  {
    FillValueSpec(x, Clamp(shape));
    ShapeOfRect(FillValue(x, Clamp(shape)), Clamp(shape));
  }

  /** A zero leading size collapses the whole fill to an empty list: `fill(x, (0, 3))` has shape `(0,)`. */
  lemma FillLeadingZero(x: int, rest: seq<int>)
    ensures FillValue(x, Clamp([0] + rest)) == List([])
    ensures ShapeOf(FillValue(x, Clamp([0] + rest))) == [0]
  {
    assert Clamp([0] + rest)[0] == 0;
  }
}
