/** Scalar helpers shared by the optimizer model: absolute value, Python's
    truncating `int(...)` on a real, and the minimum of a non-empty sequence
    (`np.min`). */
module Numeric {

  /** `abs(x)` / `np.abs(x)` on one real. */
  function Abs(x: real): (r: real)
    ensures 0.0 <= r
    ensures r == x || r == -x
  {
    if x < 0.0 then -x else x
  }

  /** Python's `int(x)` on a float: rounds toward zero. */
  function Trunc(x: real): (r: int)
    ensures 0.0 <= x ==> 0 <= r && r as real <= x < r as real + 1.0
    ensures x < 0.0 ==> r <= 0 && x <= r as real && (r - 1) as real < x
  {
    if 0.0 <= x then x.Floor else -((-x).Floor)
  }

  /** `np.min(s)`: the least element of a non-empty sequence. */
  function MinOf(s: seq<real>): real
    requires |s| > 0
  {
    if |s| == 1 then s[0]
    else var m := MinOf(s[1..]); if s[0] <= m then s[0] else m
  }

  /** `m` is MinOf(s) exactly when it is an element of `s` no larger than any other. */
  lemma {:induction false} MinOfIsLeastElement(s: seq<real>, m: real)
    requires |s| > 0
    ensures m == MinOf(s) <==>
      (exists k :: 0 <= k < |s| && s[k] == m) && (forall k :: 0 <= k < |s| ==> m <= s[k])
  {
    if |s| > 1 {
      var mt := MinOf(s[1..]);
      MinOfIsLeastElement(s[1..], mt);
      var w :| 0 <= w < |s[1..]| && s[1..][w] == mt;
      assert s[w + 1] == mt;
      assert forall k :: 1 <= k < |s| ==> mt <= s[k] by {
        forall k | 1 <= k < |s| ensures mt <= s[k] { assert s[k] == s[1..][k - 1]; }
      }
      if m == MinOf(s) {
        if s[0] <= mt { assert s[0] == m; } else { assert s[w + 1] == m; }
      }
    }
  }

  /** The first index of a least element of a non-empty sequence: it holds
      `MinOf(s)`, and every earlier entry is strictly larger. */
  function FirstMinIndex(s: seq<real>): (k: nat)
    requires |s| > 0
    ensures k < |s| && s[k] == MinOf(s)
    ensures forall r :: 0 <= r < k ==> s[k] < s[r]
  {
    if |s| == 1 || s[0] <= MinOf(s[1..]) then 0
    else
      var k' := FirstMinIndex(s[1..]);
      assert forall r :: 1 <= r < k' + 1 ==> s[r] == s[1..][r - 1];
      k' + 1
  }

  /** An index holding a least element, with every earlier entry strictly
      larger, is `FirstMinIndex`: the first minimum is unique. */
  lemma FirstMinIndexUnique(s: seq<real>, k: nat)
    requires k < |s|
    requires forall r :: 0 <= r < |s| ==> s[k] <= s[r]
    requires forall r :: 0 <= r < k ==> s[k] < s[r]
    ensures k == FirstMinIndex(s)
  {
    MinOfIsLeastElement(s, MinOf(s));
  }
}
