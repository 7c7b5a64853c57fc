/** The adaptive population schedule of the engine: the shrink rule applied
    after every iteration, the active size it produces iteration by iteration,
    and the number of objective evaluations those sizes add up to. */
module Schedule {
  import opened Numeric

  /** Smallest active population the engine shrinks to (`N_min`). */
  const N_MIN: nat := 20

  /** The shrink applied at the end of iteration `t` (1-based after the
      increment) to the previous active size `n`:
      `max(N_min, int(N_min + (n - N_min) * ((Tmax - t) / Tmax)))`. */
  function Shrink(n: nat, t: nat, tmax: nat): (r: nat)
    requires 0 < tmax && t <= tmax
    ensures N_MIN <= r
  {
    var v := Trunc(N_MIN as real + (n as real - N_MIN as real) * ((tmax - t) as real / tmax as real));
    if N_MIN < v then v else N_MIN
  }

  /** With at least `N_min` agents, a shrink keeps the size between `N_min`
      and the previous size, and the last iteration brings it down to `N_min`. */
  lemma ShrinkWithinBounds(n: nat, t: nat, tmax: nat)
    requires 0 < tmax && t <= tmax && N_MIN <= n
    ensures N_MIN <= Shrink(n, t, tmax) <= n
    ensures t == tmax ==> Shrink(n, t, tmax) == N_MIN
  {
    var q := (tmax - t) as real / tmax as real;
    assert 0.0 <= q <= 1.0;
    var d := n as real - N_MIN as real;
    assert 0.0 <= d * q <= d by {
      assert 0.0 <= d;
      assert d * q <= d * 1.0;
    }
    var x := N_MIN as real + d * q;
    assert x <= n as real;
    assert Trunc(x) <= n;
    if t == tmax {
      assert q == 0.0;
      assert Trunc(x) == N_MIN;
    }
  }

  /** As written, the rule does not keep a population smaller than `N_min`
      inside its storage: ten agents and a horizon of 100 iterations give an
      active size of 20 after the first iteration. */
  lemma ShrinkExceedsStorage()
    ensures Shrink(10, 1, 100) == 20 > 10
  {
    var x := N_MIN as real + (10.0 - N_MIN as real) * (99.0 / 100.0);
    assert x == 10.1;
    assert Trunc(x) == 10;
  }

  /** The active size during iteration `k` (0-based) for an initial size `n0`:
      the shrink is applied recursively to the previous size. */
  function ActiveSize(n0: nat, tmax: nat, k: nat): nat
    requires k <= tmax
  {
    if k == 0 then n0 else Shrink(ActiveSize(n0, tmax, k - 1), k, tmax)
  }

  /** The active size stays in `[N_min, n0]` when the run starts with at least `N_min` agents. */
  lemma {:induction false} ActiveSizeBounds(n0: nat, tmax: nat, k: nat)
    requires N_MIN <= n0 && k <= tmax
    ensures N_MIN <= ActiveSize(n0, tmax, k) <= n0
  {
    if k > 0 {
      ActiveSizeBounds(n0, tmax, k - 1);
      ShrinkWithinBounds(ActiveSize(n0, tmax, k - 1), k, tmax);
    }
  }

  /** The active size never grows from one iteration to a later one. */
  lemma {:induction false} ActiveSizeNonIncreasing(n0: nat, tmax: nat, j: nat, k: nat)
    requires N_MIN <= n0 && j <= k <= tmax
    ensures ActiveSize(n0, tmax, k) <= ActiveSize(n0, tmax, j)
  {
    if j < k {
      ActiveSizeNonIncreasing(n0, tmax, j, k - 1);
      ActiveSizeBounds(n0, tmax, k - 1);
      ShrinkWithinBounds(ActiveSize(n0, tmax, k - 1), k, tmax);
    }
  }

  /** Objective evaluations spent by the first `k` iterations: one per active agent. */
  function IterationEvaluations(n0: nat, tmax: nat, k: nat): nat
    requires k <= tmax
  {
    if k == 0 then 0 else IterationEvaluations(n0, tmax, k - 1) + ActiveSize(n0, tmax, k - 1)
  }

  /** The first `k` iterations spend between `k * N_min` and `k * n0` evaluations. */
  lemma {:induction false} IterationEvaluationsBounds(n0: nat, tmax: nat, k: nat)
    requires N_MIN <= n0 && k <= tmax
    ensures k * N_MIN <= IterationEvaluations(n0, tmax, k) <= k * n0
  {
    if k > 0 {
      IterationEvaluationsBounds(n0, tmax, k - 1);
      ActiveSizeBounds(n0, tmax, k - 1);
      assert k * N_MIN == (k - 1) * N_MIN + N_MIN;
      assert k * n0 == (k - 1) * n0 + n0;
    }
  }
}
