/** The convergence trace and the stall counter. A run's history is the
    initial best score followed by the best score recorded after each
    completed iteration; the stall counter is the length of the run of
    trailing iterations that moved the best score by less than `tol`. */
module Trace {
  import opened Numeric

  /** Every later entry is at most every earlier one. */
  ghost predicate NonIncreasing(s: seq<real>) {
    forall a, b :: 0 <= a <= b < |s| ==> s[a] >= s[b]
  }

  /** Appending a value no larger than the last entry keeps a sequence non-increasing. */
  lemma AppendKeepsNonIncreasing(s: seq<real>, x: real)
    requires |s| > 0 && NonIncreasing(s) && x <= s[|s| - 1]
    ensures NonIncreasing(s + [x])
  {
    var s' := s + [x];
    forall a, b | 0 <= a <= b < |s'| ensures s'[a] >= s'[b] {
      if b == |s| {
        if a < |s| { assert s'[a] == s[a] >= s[|s| - 1]; }
      } else {
        assert s'[a] == s[a] && s'[b] == s[b];
      }
    }
  }

  /** The stall counter after the iterations recorded in `h`: reset to 0 by a
      change of at least `tol`, incremented by a smaller one. */
  function StallRun(h: seq<real>, tol: real): (r: nat)
    ensures |h| > 0 ==> r < |h|
  {
    if |h| < 2 then 0
    else if Abs(h[|h| - 2] - h[|h| - 1]) < tol then StallRun(h[..|h| - 1], tol) + 1
    else 0
  }

  /** The counter of `h + [x]` follows the update rule of one iteration. */
  lemma StallRunStep(h: seq<real>, x: real, tol: real)
    requires |h| > 0
    ensures StallRun(h + [x], tol) ==
      if Abs(h[|h| - 1] - x) < tol then StallRun(h, tol) + 1 else 0
  {
    assert (h + [x])[..|h|] == h;
  }

  /** The counter is at least `m` exactly when each of the last `m` recorded
      iterations changed the best score by less than `tol`. */
  lemma {:induction false} StallRunCountsSmallSteps(h: seq<real>, tol: real, m: nat)
    requires |h| > 0
    ensures m <= StallRun(h, tol) <==>
      m < |h| && forall k :: |h| - m <= k < |h| ==> Abs(h[k - 1] - h[k]) < tol
  {
    if m > 0 && |h| >= 2 {
      var h' := h[..|h| - 1];
      StallRunCountsSmallSteps(h', tol, m - 1);
      assert forall k :: 0 <= k < |h'| ==> h'[k] == h[k];
      if Abs(h[|h| - 2] - h[|h| - 1]) < tol {
        assert StallRun(h, tol) == StallRun(h', tol) + 1;
      } else {
        assert StallRun(h, tol) == 0;
      }
    }
  }

  /** No proper prefix of `h` (ending after an earlier iteration) reached the
      stall limit: the loop condition held at every earlier check. */
  ghost predicate NeverStalled(h: seq<real>, tol: real, maxStall: int) {
    forall k :: 0 < k < |h| ==> StallRun(h[..k], tol) < maxStall
  }

  /** Running one more iteration after a check that passed keeps every
      earlier check passed. */
  lemma NeverStalledStep(h: seq<real>, x: real, tol: real, maxStall: int)
    requires NeverStalled(h, tol, maxStall) && StallRun(h, tol) < maxStall
    ensures NeverStalled(h + [x], tol, maxStall)
  {
    var h' := h + [x];
    forall k | 0 < k < |h'| ensures StallRun(h'[..k], tol) < maxStall {
      assert h'[..k] == h[..k];
      if k == |h| {
        assert h[..k] == h;
      }
    }
  }
}
