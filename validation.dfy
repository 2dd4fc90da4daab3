/** The shape and parameter checks shared by the tensor and layer code. */
module Validation {
  import opened Wrappers

  /** `assert_n_dims`: a tensor of rank `nDims` passes exactly when its rank is `n`. */
  function AssertNDims(nDims: int, n: int): (r: Outcome)
    ensures r.Pass? <==> nDims == n
    ensures r.Fail? ==> r.error == ValueError
  {
    if nDims != n then Fail(ValueError) else Pass
  }

  /** Python's `str.lower()` on one character (ASCII letters only). */
  function LowerChar(c: char): (r: char)
    ensures 'A' <= c <= 'Z' ==> r as int == c as int + 32
    ensures !('A' <= c <= 'Z') ==> r == c
  {
    if 'A' <= c <= 'Z' then (c as int + 32) as char else c
  }

  /** Python's `str.lower()` (ASCII letters only). */
  function Lower(s: string): (r: string)
    ensures |r| == |s|
    ensures forall i :: 0 <= i < |s| ==> r[i] == LowerChar(s[i])
  {
    seq(|s|, i requires 0 <= i < |s| => LowerChar(s[i]))
  }

  /** Lower-casing twice is lower-casing once. */
  lemma LowerIdempotent(s: string)
    ensures Lower(Lower(s)) == Lower(s)
  {
    assert forall i :: 0 <= i < |s| ==> LowerChar(LowerChar(s[i])) == LowerChar(s[i]);
  }

  /**
   * `assert_supported_params`: a parameter name passes exactly when its lower-cased
   * form is one of the registry's keys.
   */
  function AssertSupportedParams(supported: set<string>, param: string): (r: Outcome)
    ensures r.Pass? <==> Lower(param) in supported
    ensures r.Fail? ==> r.error == ValueError
  {
    if Lower(param) !in supported then Fail(ValueError) else Pass
  }

  /** `assert_same_shape`: passes exactly when the two shapes are equal, and has no other effect. */
  function AssertSameShape(a: seq<nat>, b: seq<nat>): (r: Outcome)
    ensures r.Pass? <==> a == b
    ensures r.Fail? ==> r.error == ValueError
  {
    if a != b then Fail(ValueError) else Pass
  }

  /** `is_scalar`: a tensor counts as a scalar exactly when its shape is `(1,)`. */
  function IsScalar(shape: seq<nat>): (r: bool)
    ensures r <==> |shape| == 1 && shape[0] == 1
  {
    shape == [1]
  }
}
