/** One agent's position update, coordinate by coordinate, in the two search
    strategies (Hunting and Mating), and the box clipping that follows it.
    The random draws and the transcendental factors are inputs; every
    coordinate formula reads the population as it stood before the agent's
    update. */
module Updates {
  import opened Numeric

  /** Probability of choosing the Hunting strategy for an iteration (`TR`). */
  const TR: real := 0.5
  /** Per-coordinate crossover probability of the Mating strategy (`Cr`). */
  const CR: real := 0.3

  type PosReal = x: real | 0.0 < x witness 1.0

  /** The transcendental functions the formulas use: `np.exp`, and
      `x -> np.cos(2 * pi * x)`. */
  datatype Maths = Maths(exp: real -> PosReal, cos2Pi: real -> real)

  /** The three schedule factors of iteration `t`: `a = 2 - 2 t/Tmax`,
      `a2 = -1 - t/Tmax`, `k = 1 - t/Tmax`. */
  datatype Coefficients = Coefficients(a: real, a2: real, k: real)

  function CoefficientsAt(t: nat, tmax: nat): (cf: Coefficients)
    requires 0 < tmax
    ensures cf.a == 2.0 * cf.k && cf.a2 == cf.k - 2.0
    ensures t <= tmax ==> 0.0 <= cf.k <= 1.0 && 0.0 <= cf.a <= 2.0 && -2.0 <= cf.a2 <= -1.0
    ensures t == 0 ==> cf == Coefficients(2.0, -1.0, 1.0)
    ensures t == tmax ==> cf == Coefficients(0.0, -2.0, 0.0)
  {
    var f := t as real / tmax as real;
    Coefficients(2.0 - 2.0 * f, -1.0 - 1.0 * f, 1.0 - f)
  }

  /** `l = (a2 - 1) * rand + 1`, drawn once per agent in either strategy. */
  function StepFactor(cf: Coefficients, lRand: real): real {
    (cf.a2 - 1.0) * lRand + 1.0
  }

  /** The draws of one Hunting agent: `r1, r2, r3, p`, the draw behind `l`,
      the normal `rn1`, and per-coordinate values: the Levy step `L`, the
      vector `vc`, and the uniforms drawn inside the coordinate loop. */
  datatype HuntDraw = HuntDraw(
    r1: real, r2: real, r3: real, p: real, lRand: real, rn1: real,
    levy: nat -> real, vc: nat -> real,
    envRand: nat -> real, scaleRand: nat -> real, coinA: nat -> real, coinB: nat -> real)

  /** The draws of one Mating agent: the draw behind `l`, the normals
      `rn1, rn2`, and the per-coordinate crossover uniforms. */
  datatype MateDraw = MateDraw(lRand: real, rn1: real, rn2: real, cross: nat -> real)

  /** New value of coordinate `j` of a Hunting agent. `x` is the agent's own
      coordinate, `q1, q2, q3, qi` the coordinates of agents `JK[1]`, `JK[2]`,
      `JK[3]` and `JK[i]`, `best` that of the best position; `explore` is the
      test `i < k * search_agents_no`. */
  function HuntCoord(x: real, q1: real, q2: real, q3: real, qi: real, best: real,
                     lo: real, hi: real, explore: bool,
                     d: HuntDraw, j: nat, cf: Coefficients, m: Maths): real
  {
    var l := StepFactor(cf, d.lRand);
    if explore then
      if d.p < cf.k then
        if d.r1 < d.r2 then
          x + Abs(d.rn1) * d.r1 * (q1 - q2)
        else
          qi + (1.0 / (1.0 + m.exp(l))) * m.cos2Pi(l) * (lo + d.envRand(j) * (hi - lo))
      else
        if d.r1 < d.r2 then
          x + cf.a * (2.0 * d.r1 - 1.0) * Abs(2.0 * d.scaleRand(j) * q3 - x)
        else
          x * d.vc(j)
    else
      if d.r1 < d.r2 then
        best + m.cos2Pi(l) * (best - x)
      else
        q1 + d.r3 * Abs(d.levy(j)) * (q1 - x)
          + (1.0 - d.r3) * (if d.coinA(j) > d.coinB(j) then 1.0 else 0.0) * (q3 - q2)
  }

  /** A population `p` of `|p|` positions of dimension `dim`. */
  ghost predicate Rectangular(p: seq<seq<real>>, dim: nat) {
    forall r :: 0 <= r < |p| ==> |p[r]| == dim
  }

  /** `JK`: a permutation of `0 .. n-1`. */
  ghost predicate IsPermutation(jk: seq<nat>, n: nat) {
    && |jk| == n
    && (forall x :: 0 <= x < n ==> jk[x] < n)
    && (forall x, y :: 0 <= x < y < n ==> jk[x] != jk[y])
  }

  /** The unclipped position of Hunting agent `i` of the `n` active agents,
      computed from the population `p` before its update. */
  ghost function HuntRow(p: seq<seq<real>>, jk: seq<nat>, i: nat, n: nat, best: seq<real>,
                         lb: seq<real>, ub: seq<real>, d: HuntDraw, cf: Coefficients, m: Maths): (r: seq<real>)
    requires 4 <= n <= |p| && IsPermutation(jk, n) && i < n
    requires Rectangular(p, |best|) && |lb| == |best| && |ub| == |best|
    ensures |r| == |best|
    ensures forall j :: 0 <= j < |best| ==>
      r[j] == HuntCoord(p[i][j], p[jk[1]][j], p[jk[2]][j], p[jk[3]][j], p[jk[i]][j], best[j],
                lb[j], ub[j], (i as real) < cf.k * (n as real), d, j, cf, m)
  {
    HuntPrefix(p, jk, i, n, best, lb, ub, d, cf, m, |best|)
  }

  /** The first `len` coordinates of `HuntRow`. */
  ghost function HuntPrefix(p: seq<seq<real>>, jk: seq<nat>, i: nat, n: nat, best: seq<real>,
                            lb: seq<real>, ub: seq<real>, d: HuntDraw, cf: Coefficients, m: Maths,
                            len: nat): (r: seq<real>)
    requires 4 <= n <= |p| && IsPermutation(jk, n) && i < n
    requires Rectangular(p, |best|) && |lb| == |best| && |ub| == |best| && len <= |best|
    ensures |r| == len
    ensures forall j :: 0 <= j < len ==>
      r[j] == HuntCoord(p[i][j], p[jk[1]][j], p[jk[2]][j], p[jk[3]][j], p[jk[i]][j], best[j],
                lb[j], ub[j], (i as real) < cf.k * (n as real), d, j, cf, m)
  {
    if len == 0 then []
    else
      var j := len - 1;
      HuntPrefix(p, jk, i, n, best, lb, ub, d, cf, m, j)
        + [HuntCoord(p[i][j], p[jk[1]][j], p[jk[2]][j], p[jk[3]][j], p[jk[i]][j], best[j],
                     lb[j], ub[j], (i as real) < cf.k * (n as real), d, j, cf, m)]
  }

  /** The displacement from `from` toward `toward` when `toward` has the
      better fitness, and the one from `toward` back to `from` otherwise. */
  function Direction(toward: seq<real>, from: seq<real>, better: bool): (v: seq<real>)
    requires |toward| == |from|
    ensures |v| == |from|
    ensures better ==> forall j :: 0 <= j < |v| ==> from[j] + v[j] == toward[j]
    ensures !better ==> forall j :: 0 <= j < |v| ==> toward[j] + v[j] == from[j]
  {
    seq(|from|, j requires 0 <= j < |from| => if better then toward[j] - from[j] else from[j] - toward[j])
  }

  /** Candidate coordinate `SW_m[j]` of a Mating agent. */
  function MateCoord(x: real, v1: real, v2: real, l: real, d: MateDraw, m: Maths): real {
    x + m.exp(l) * Abs(d.rn1) * v1 + (1.0 - m.exp(l)) * Abs(d.rn2) * v2
  }

  /** The candidate vector `SW_m` of Mating agent `i`: the first
      displacement points from the agent to `jk[1]` when `jk[1]` has the
      lower fitness and from `jk[1]` to the agent otherwise; the second
      points from `jk[3]` to `jk[2]` when `jk[2]` has the lower fitness and
      from `jk[2]` to `jk[3]` otherwise. */
  ghost function MateCandidate(p: seq<seq<real>>, fit: seq<real>, jk: seq<nat>, i: nat, n: nat,
                               d: MateDraw, cf: Coefficients, m: Maths): (c: seq<real>)
    requires 4 <= n <= |p| == |fit| && IsPermutation(jk, n) && i < n
    requires Rectangular(p, |p[0]|)
    ensures |c| == |p[i]|
    ensures forall j :: 0 <= j < |c| ==>
      c[j] == MateCoord(p[i][j],
                        if fit[jk[1]] < fit[i] then p[jk[1]][j] - p[i][j] else p[i][j] - p[jk[1]][j],
                        if fit[jk[2]] < fit[jk[3]] then p[jk[2]][j] - p[jk[3]][j] else p[jk[3]][j] - p[jk[2]][j],
                        StepFactor(cf, d.lRand), d, m)
  {
    var v1 := Direction(p[jk[1]], p[i], fit[jk[1]] < fit[i]);
    var v2 := Direction(p[jk[2]], p[jk[3]], fit[jk[2]] < fit[jk[3]]);
    var l := StepFactor(cf, d.lRand);
    seq(|p[i]|, j requires 0 <= j < |p[i]| => MateCoord(p[i][j], v1[j], v2[j], l, d, m))
  }

  /** The unclipped position of Mating agent `i` after crossover with its
      candidate: a coordinate whose crossover draw is below `Cr` takes the
      candidate's value, every other keeps the agent's own. */
  ghost function MateRow(p: seq<seq<real>>, fit: seq<real>, jk: seq<nat>, i: nat, n: nat,
                         d: MateDraw, cf: Coefficients, m: Maths): (r: seq<real>)
    requires 4 <= n <= |p| == |fit| && IsPermutation(jk, n) && i < n
    requires Rectangular(p, |p[0]|)
    ensures |r| == |p[i]|
    ensures forall j :: 0 <= j < |r| && d.cross(j) < CR ==> r[j] == MateCandidate(p, fit, jk, i, n, d, cf, m)[j]
    ensures forall j :: 0 <= j < |r| && CR <= d.cross(j) ==> r[j] == p[i][j]
  {
    var c := MateCandidate(p, fit, jk, i, n, d, cf, m);
    seq(|p[i]|, j requires 0 <= j < |p[i]| => if d.cross(j) < CR then c[j] else p[i][j])
  }

  /** `np.clip` on one coordinate: `min(hi, max(x, lo))`. */
  function Clip(x: real, lo: real, hi: real): (r: real)
    ensures lo <= hi ==> lo <= r <= hi
    ensures lo <= hi ==> (r == x <==> lo <= x <= hi)
  {
    var y := if x < lo then lo else x;
    if hi < y then hi else y
  }

  /** Every coordinate of `x` lies in `[lb[j], ub[j]]`. */
  ghost predicate InBox(x: seq<real>, lb: seq<real>, ub: seq<real>) {
    |x| == |lb| == |ub| && forall j :: 0 <= j < |x| ==> lb[j] <= x[j] <= ub[j]
  }

  /** `np.clip(x, lb, ub)` on a whole position. */
  ghost function ClipVec(x: seq<real>, lb: seq<real>, ub: seq<real>): (r: seq<real>)
    requires |x| == |lb| == |ub|
    ensures |r| == |x|
    ensures forall j :: 0 <= j < |r| ==> r[j] == Clip(x[j], lb[j], ub[j])
  {
    seq(|x|, j requires 0 <= j < |x| => Clip(x[j], lb[j], ub[j]))
  }

  /** Clipping into a non-empty box lands in the box, and leaves a position
      already in the box unchanged. */
  lemma ClipVecInBox(x: seq<real>, lb: seq<real>, ub: seq<real>)
    requires |x| == |lb| == |ub|
    requires forall j :: 0 <= j < |lb| ==> lb[j] <= ub[j]
    ensures InBox(ClipVec(x, lb, ub), lb, ub)
    ensures InBox(x, lb, ub) ==> ClipVec(x, lb, ub) == x
  {
  }
}
