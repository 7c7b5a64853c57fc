/** The population of search agents, stored in place: positions in a
    two-dimensional array, fitness in an array, the best position and score,
    and the evaluation counters. The per-agent update of both strategies and
    the accept/rollback step live here. */
module Agents {
  import opened Numeric
  import opened Updates

  /** `Positions[i]` as a vector. */
  function RowOf(a: array2<real>, i: nat): (r: seq<real>)
    reads a
    requires i < a.Length0
    ensures |r| == a.Length1 && forall j :: 0 <= j < a.Length1 ==> r[j] == a[i, j]
  {
    seq(a.Length1, j requires 0 <= j < a.Length1 reads a => a[i, j])
  }

  /** The fitness of every agent of a population. */
  function Fitnesses(fobj: seq<real> -> real, p: seq<seq<real>>): (f: seq<real>)
    ensures |f| == |p| && forall i :: 0 <= i < |p| ==> f[i] == fobj(p[i])
  {
    seq(|p|, i requires 0 <= i < |p| => fobj(p[i]))
  }

  /** `np.argmin`: the first index of a least element. */
  method ArgMin(a: array<real>) returns (k: nat)
    requires 0 < a.Length
    ensures k < a.Length
    ensures forall i :: 0 <= i < a.Length ==> a[k] <= a[i]
    ensures forall i :: 0 <= i < k ==> a[k] < a[i]
  {
    k := 0;
    var i := 1;
    while i < a.Length
      invariant 1 <= i <= a.Length && k < i
      invariant forall x :: 0 <= x < i ==> a[k] <= a[x]
      invariant forall x :: 0 <= x < k ==> a[k] < a[x]
    {
      if a[i] < a[k] {
        k := i;
      }
      i := i + 1;
    }
  }

  /** The array of the initial positions. */
  method StorePositions(init: seq<seq<real>>, dim: nat) returns (a: array2<real>)
    requires Rectangular(init, dim)
    ensures fresh(a) && a.Length0 == |init| && a.Length1 == dim
    ensures forall r, c :: 0 <= r < |init| && 0 <= c < dim ==> a[r, c] == init[r][c]
  {
    a := new real[|init|, dim];
    var i := 0;
    while i < |init|
      invariant 0 <= i <= |init|
      invariant forall r, c :: 0 <= r < i && 0 <= c < dim ==> a[r, c] == init[r][c]
    {
      var j := 0;
      while j < dim
        invariant 0 <= j <= dim
        invariant forall r, c :: 0 <= r < i && 0 <= c < dim ==> a[r, c] == init[r][c]
        invariant forall c :: 0 <= c < j ==> a[i, c] == init[i][c]
      {
        a[i, j] := init[i][j];
        j := j + 1;
      }
      i := i + 1;
    }
  }

  /** The fitness of every stored position, in agent order. */
  method EvaluateAll(a: array2<real>, fobj: seq<real> -> real) returns (f: array<real>)
    ensures fresh(f) && f.Length == a.Length0
    ensures forall r :: 0 <= r < a.Length0 ==> f[r] == fobj(RowOf(a, r))
  {
    f := new real[a.Length0];
    var i := 0;
    while i < a.Length0
      invariant 0 <= i <= a.Length0
      invariant forall r :: 0 <= r < i ==> f[r] == fobj(RowOf(a, r))
    {
      f[i] := fobj(RowOf(a, i));
      i := i + 1;
    }
  }

  /** The coordinate loop of a Hunting agent on row `i` of `a`, which holds
      the population `p`: coordinate `j` is computed from column `j` alone,
      so the row becomes `HuntRow` of the population before the update. */
  method HuntInPlace(a: array2<real>, ghost p: seq<seq<real>>, i: nat, n: nat, jk: seq<nat>,
                     best: seq<real>, lb: seq<real>, ub: seq<real>, d: HuntDraw, cf: Coefficients, m: Maths)
    requires |p| == a.Length0 && Rectangular(p, a.Length1)
    requires forall r, c :: 0 <= r < a.Length0 && 0 <= c < a.Length1 ==> a[r, c] == p[r][c]
    requires 4 <= n <= |p| && IsPermutation(jk, n) && i < n
    requires |best| == a.Length1 && |lb| == a.Length1 && |ub| == a.Length1
    modifies a
    ensures forall r, c :: 0 <= r < a.Length0 && 0 <= c < a.Length1 ==>
      a[r, c] == if r == i then HuntRow(p, jk, i, n, best, lb, ub, d, cf, m)[c] else p[r][c]
  {
    ghost var h := HuntRow(p, jk, i, n, best, lb, ub, d, cf, m);
    var explore := (i as real) < cf.k * (n as real);
    var j := 0;
    while j < a.Length1
      invariant 0 <= j <= a.Length1
      invariant forall r, c :: 0 <= r < a.Length0 && 0 <= c < a.Length1 && (r != i || j <= c) ==>
        a[r, c] == p[r][c]
      invariant forall c :: 0 <= c < j ==> a[i, c] == h[c]
    {
      var x, q1, q2, q3, qi := a[i, j], a[jk[1], j], a[jk[2], j], a[jk[3], j], a[jk[i], j];
      assert x == p[i][j] && q1 == p[jk[1]][j] && q2 == p[jk[2]][j] && q3 == p[jk[3]][j] && qi == p[jk[i]][j];
      a[i, j] := HuntCoord(x, q1, q2, q3, qi, best[j], lb[j], ub[j], explore, d, j, cf, m);
      j := j + 1;
    }
  }

  /** The coordinate loop of a Mating agent on row `i` of `a`: `SW_m[j]` is
      computed from the agent's coordinate and the difference vectors, and
      taken when the crossover draw is below `Cr`. Returns `SW_m`. */
  method MateInPlace(a: array2<real>, i: nat, v1: seq<real>, v2: seq<real>, l: real, d: MateDraw, m: Maths)
    returns (swM: seq<real>)
    requires i < a.Length0 && |v1| == a.Length1 && |v2| == a.Length1
    modifies a
    ensures |swM| == a.Length1
    ensures forall c :: 0 <= c < a.Length1 ==> swM[c] == MateCoord(old(a[i, c]), v1[c], v2[c], l, d, m)
    ensures forall r, c :: 0 <= r < a.Length0 && 0 <= c < a.Length1 ==>
      a[r, c] == if r == i && d.cross(c) < CR then swM[c] else old(a[r, c])
  {
    swM := seq(a.Length1, _ => 0.0);
    var j := 0;
    while j < a.Length1
      invariant 0 <= j <= a.Length1 && |swM| == a.Length1
      invariant forall c :: 0 <= c < j ==> swM[c] == MateCoord(old(a[i, c]), v1[c], v2[c], l, d, m)
      invariant forall r, c :: 0 <= r < a.Length0 && 0 <= c < a.Length1 ==>
        a[r, c] == if r == i && c < j && d.cross(c) < CR then swM[c] else old(a[r, c])
    {
      swM := swM[j := MateCoord(a[i, j], v1[j], v2[j], l, d, m)];
      if d.cross(j) < CR {
        a[i, j] := swM[j];
      }
      j := j + 1;
    }
  }

  /** Clip row `i` of the stored positions into the box in place, one coordinate at a time. */
  method ClipRow(a: array2<real>, i: nat, lb: seq<real>, ub: seq<real>)
    requires i < a.Length0 && |lb| == a.Length1 && |ub| == a.Length1
    modifies a
    ensures forall r, c :: 0 <= r < a.Length0 && 0 <= c < a.Length1 ==>
      a[r, c] == if r == i then Clip(old(a[r, c]), lb[c], ub[c]) else old(a[r, c])
  {
    var j := 0;
    while j < a.Length1
      invariant 0 <= j <= a.Length1
      invariant forall r, c :: 0 <= r < a.Length0 && 0 <= c < a.Length1 ==>
        a[r, c] == if r == i && c < j then Clip(old(a[r, c]), lb[c], ub[c]) else old(a[r, c])
    {
      a[i, j] := Clip(a[i, j], lb[j], ub[j]);
      j := j + 1;
    }
  }

  /** Overwrite the stored position of one agent with `row`. */
  method WriteRow(a: array2<real>, i: nat, row: seq<real>)
    requires i < a.Length0 && |row| == a.Length1
    modifies a
    ensures forall r, c :: 0 <= r < a.Length0 && 0 <= c < a.Length1 ==>
      a[r, c] == if r == i then row[c] else old(a[r, c])
  {
    var j := 0;
    while j < a.Length1
      invariant 0 <= j <= a.Length1
      invariant forall r, c :: 0 <= r < a.Length0 && 0 <= c < a.Length1 ==>
        a[r, c] == if r == i && c < j then row[c] else old(a[r, c])
    {
      a[i, j] := row[j];
      j := j + 1;
    }
  }

  /** From `p0, f0` to `p, f`, no fitness increased, an agent whose fitness
      did not strictly drop kept its position, and agents from `i` on are
      untouched. */
  ghost predicate Improved(p0: seq<seq<real>>, f0: seq<real>, p: seq<seq<real>>, f: seq<real>, i: nat) {
    && |p| == |p0| == |f| == |f0|
    && (forall r :: 0 <= r < |f| ==> f[r] <= f0[r])
    && (forall r :: 0 <= r < |f| ==> f[r] == f0[r] ==> p[r] == p0[r])
    && (forall r :: i <= r < |f| ==> p[r] == p0[r] && f[r] == f0[r])
  }

  /** From `p1, f1` to `p2, f2` only agent `i` may change, and only to a
      strictly lower fitness. */
  ghost predicate SettleStep(p1: seq<seq<real>>, f1: seq<real>, p2: seq<seq<real>>, f2: seq<real>, i: nat) {
    && |p2| == |p1| == |f2| == |f1| && i < |f1|
    && (forall r :: 0 <= r < |f1| && r != i ==> p2[r] == p1[r] && f2[r] == f1[r])
    && f2[i] <= f1[i] && (f2[i] == f1[i] ==> p2[i] == p1[i])
  }

  /** A settled step of agent `i` extends `Improved` by one agent. */
  lemma SettleImproves(p0: seq<seq<real>>, f0: seq<real>, p1: seq<seq<real>>, f1: seq<real>,
                       p2: seq<seq<real>>, f2: seq<real>, i: nat)
    requires Improved(p0, f0, p1, f1, i) && SettleStep(p1, f1, p2, f2, i)
    ensures Improved(p0, f0, p2, f2, i + 1)
  {
  }

  /** The value-level state of a population: positions, fitness, best
      position and score, and the evaluation count. */
  datatype Snapshot = Snapshot(pop: seq<seq<real>>, fit: seq<real>, bestSW: seq<real>, bestScore: real, neval: nat)

  /** One fitness per position, every position and the best of dimension `dim`. */
  ghost predicate Fits(s: Snapshot, dim: nat) {
    |s.pop| == |s.fit| && Rectangular(s.pop, dim) && |s.bestSW| == dim
  }

  /** Settling agent `i` on the unclipped position `cand`: the clipped
      position and its fitness replace the agent's when that fitness is
      strictly lower than its stored one, and the best position and score
      follow a fitness below the best score; otherwise the agent keeps its
      position and fitness. One evaluation is counted either way. */
  ghost function Settle(s: Snapshot, i: nat, cand: seq<real>, lb: seq<real>, ub: seq<real>,
                        fobj: seq<real> -> real): (r: Snapshot)
    requires Fits(s, |lb|) && i < |s.pop| && |cand| == |lb| == |ub|
    ensures Fits(r, |lb|) && SettleStep(s.pop, s.fit, r.pop, r.fit, i)
    ensures r.neval == s.neval + 1 && r.bestScore <= s.bestScore
    ensures r.fit[i] < s.fit[i] <==> fobj(ClipVec(cand, lb, ub)) < s.fit[i]
    ensures r.fit[i] < s.fit[i] ==> r.pop[i] == ClipVec(cand, lb, ub) && r.fit[i] == fobj(r.pop[i])
    ensures r.bestScore < s.bestScore <==>
      fobj(ClipVec(cand, lb, ub)) < s.fit[i] && fobj(ClipVec(cand, lb, ub)) < s.bestScore
    ensures r.bestScore < s.bestScore ==> r.bestSW == r.pop[i] && r.bestScore == r.fit[i]
    ensures r.bestScore == s.bestScore ==> r.bestSW == s.bestSW
  {
    var cv := ClipVec(cand, lb, ub);
    var fit := fobj(cv);
    if fit < s.fit[i] then
      var better := fit < s.bestScore;
      Snapshot(s.pop[i := cv], s.fit[i := fit], if better then cv else s.bestSW,
               if better then fit else s.bestScore, s.neval + 1)
    else
      s.(neval := s.neval + 1)
  }

  /** The Hunting strategy on values: agents `0 .. k-1` of the `n` active
      ones settled in index order, each on `HuntRow` of the population and
      best position left by the agents before it. */
  ghost function HuntFold(s: Snapshot, k: nat, n: nat, jk: seq<nat>, hunt: nat -> HuntDraw, cf: Coefficients,
                          lb: seq<real>, ub: seq<real>, fobj: seq<real> -> real, m: Maths): (r: Snapshot)
    requires Fits(s, |lb|) && |ub| == |lb| && 4 <= n <= |s.pop| && IsPermutation(jk, n) && k <= n
    ensures Fits(r, |lb|) && |r.pop| == |s.pop|
    ensures r.neval == s.neval + k && r.bestScore <= s.bestScore
    ensures Improved(s.pop, s.fit, r.pop, r.fit, k)
    decreases k
  {
    if k == 0 then s
    else
      var q := HuntFold(s, k - 1, n, jk, hunt, cf, lb, ub, fobj, m);
      var r := Settle(q, k - 1, HuntRow(q.pop, jk, k - 1, n, q.bestSW, lb, ub, hunt(k - 1), cf, m), lb, ub, fobj);
      SettleImproves(s.pop, s.fit, q.pop, q.fit, r.pop, r.fit, k - 1);
      r
  }

  /** The Mating strategy on values: agents `0 .. k-1` of the `n` active
      ones settled in index order, each on `MateRow` of the population and
      fitness left by the agents before it. */
  ghost function MateFold(s: Snapshot, k: nat, n: nat, jk: seq<nat>, mate: nat -> MateDraw, cf: Coefficients,
                          lb: seq<real>, ub: seq<real>, fobj: seq<real> -> real, m: Maths): (r: Snapshot)
    requires Fits(s, |lb|) && |ub| == |lb| && 4 <= n <= |s.pop| && IsPermutation(jk, n) && k <= n
    ensures Fits(r, |lb|) && |r.pop| == |s.pop|
    ensures r.neval == s.neval + k && r.bestScore <= s.bestScore
    ensures Improved(s.pop, s.fit, r.pop, r.fit, k)
    decreases k
  {
    if k == 0 then s
    else
      var q := MateFold(s, k - 1, n, jk, mate, cf, lb, ub, fobj, m);
      assert |q.pop[0]| == |lb|;
      var r := Settle(q, k - 1, MateRow(q.pop, q.fit, jk, k - 1, n, mate(k - 1), cf, m), lb, ub, fobj);
      SettleImproves(s.pop, s.fit, q.pop, q.fit, r.pop, r.fit, k - 1);
      r
  }

  /** One iteration's pass on values: the Hunting strategy when the coin
      falls below `TR`, the Mating strategy otherwise. */
  ghost function PassFold(s: Snapshot, n: nat, jk: seq<nat>, coin: real, hunt: nat -> HuntDraw,
                          mate: nat -> MateDraw, cf: Coefficients, lb: seq<real>, ub: seq<real>,
                          fobj: seq<real> -> real, m: Maths): (r: Snapshot)
    requires Fits(s, |lb|) && |ub| == |lb| && 4 <= n <= |s.pop| && IsPermutation(jk, n)
    ensures Fits(r, |lb|) && |r.pop| == |s.pop|
    ensures r.neval == s.neval + n && r.bestScore <= s.bestScore
    ensures Improved(s.pop, s.fit, r.pop, r.fit, n)
  {
    if coin < TR then HuntFold(s, n, n, jk, hunt, cf, lb, ub, fobj, m)
    else MateFold(s, n, n, jk, mate, cf, lb, ub, fobj, m)
  }

  /** The state after evaluating the initial population: every agent's
      fitness, one evaluation per agent, and the agent at the first minimum
      of the fitness as the best. */
  ghost function InitialSnap(init: seq<seq<real>>, fobj: seq<real> -> real): (s: Snapshot)
    requires 0 < |init|
    ensures s.pop == init && s.fit == Fitnesses(fobj, init) && s.neval == |init|
    ensures s.bestScore == MinOf(s.fit) && fobj(s.bestSW) == s.bestScore
    ensures exists k :: 0 <= k < |init| && s.bestSW == init[k] && forall r :: 0 <= r < k ==> s.bestScore < s.fit[r]
  {
    var f := Fitnesses(fobj, init);
    var k := FirstMinIndex(f);
    Snapshot(init, f, init[k], f[k], |init|)
  }

  class Population {
    const dim: nat
    const lb: seq<real>
    const ub: seq<real>
    const fobj: seq<real> -> real
    const fname: string
    const maths: Maths
    /** The initial `search_agents_no`: the number of stored agents. */
    const capacity: nat
    const positions: array2<real>
    const swFit: array<real>

    var bestSW: seq<real>
    var bestScore: real
    var neval: nat
    var nevalPerFunction: map<string, nat>

    /** The stored positions as values, one per agent. */
    ghost var Pop: seq<seq<real>>
    /** An agent whose position is `bestSW`. */
    ghost var bestIdx: nat

    ghost predicate Shape()
      reads this
    {
      && positions.Length0 == capacity && positions.Length1 == dim && swFit.Length == capacity
      && |lb| == dim && |ub| == dim && |bestSW| == dim
      && |Pop| == capacity && Rectangular(Pop, dim)
    }

    /** The array holds `Pop`. */
    ghost predicate Stored()
      reads this, positions
      requires Shape()
    {
      forall r, j :: 0 <= r < capacity && 0 <= j < dim ==> positions[r, j] == Pop[r][j]
    }

    /** Every stored agent is in the box, its fitness is that of its position,
        and no agent is better than the best score, which is the fitness of
        the agent holding `bestSW`. */
    ghost predicate Agents()
      reads this, swFit
      requires Shape()
    {
      && (forall r :: 0 <= r < capacity ==> InBox(Pop[r], lb, ub))
      && (forall r :: 0 <= r < capacity ==> swFit[r] == fobj(Pop[r]))
      && (forall r :: 0 <= r < capacity ==> bestScore <= swFit[r])
      && bestIdx < capacity && Pop[bestIdx] == bestSW && swFit[bestIdx] == bestScore
    }

    ghost predicate Valid()
      reads this, positions, swFit
    {
      Shape() && Stored() && Agents() && nevalPerFunction == map[fname := neval]
    }

    /** `Best_score` is `np.min(SW_Fit)` over the stored agents, and it is
        the fitness of `Best_SW`. */
    lemma BestIsMinimum()
      requires Valid()
      ensures bestScore == MinOf(swFit[..]) && fobj(bestSW) == bestScore
    {
      MinOfIsLeastElement(swFit[..], bestScore);
    }

    /** Store and evaluate the initial population and select its best agent
        (`np.min` and `np.argmin` of the fitness). */
    constructor (init: seq<seq<real>>, lb0: seq<real>, ub0: seq<real>, dim0: nat,
                 fobj0: seq<real> -> real, fname0: string, maths0: Maths)
      requires 0 < |init| && |lb0| == dim0 && |ub0| == dim0
      requires forall i :: 0 <= i < |init| ==> InBox(init[i], lb0, ub0)
      ensures Valid() && fresh(positions) && fresh(swFit)
      ensures dim == dim0 && lb == lb0 && ub == ub0 && fobj == fobj0 && fname == fname0 && maths == maths0
      ensures capacity == |init| && Pop == init && neval == |init|
      ensures swFit[..] == Fitnesses(fobj0, init)
      ensures bestScore == MinOf(Fitnesses(fobj0, init))
      ensures bestIdx < |init| && bestSW == init[bestIdx]
      ensures forall r :: 0 <= r < bestIdx ==> bestScore < Fitnesses(fobj0, init)[r]
      ensures Snap() == InitialSnap(init, fobj0)
    {
      var P := StorePositions(init, dim0);
      var F := EvaluateAll(P, fobj0);
      assert forall r :: 0 <= r < |init| ==> RowOf(P, r) == init[r];
      assert F[..] == Fitnesses(fobj0, init);
      var best := MinOf(F[..]);
      var k := ArgMin(F);
      MinOfIsLeastElement(F[..], F[k]);
      FirstMinIndexUnique(F[..], k);
      dim, lb, ub, fobj, fname, maths := dim0, lb0, ub0, fobj0, fname0, maths0;
      capacity, positions, swFit := |init|, P, F;
      neval := |init|;
      nevalPerFunction := map[fname0 := |init|];
      bestScore := best;
      bestSW := RowOf(P, k);
      Pop := init;
      bestIdx := k;
    }

    /** The state as a value. */
    ghost function Snap(): Snapshot
      reads this, swFit
    {
      Snapshot(Pop, swFit[..], bestSW, bestScore, neval)
    }

    /** Processing agent `i` with unclipped position `cand` took the state
        from `old(Snap())` to `Settle` of it. */
    twostate predicate Settled(i: nat, cand: seq<real>)
      reads this, swFit
    {
      && |cand| == |lb| == |ub| && i < |old(Pop)| && Fits(old(Snap()), |lb|)
      && Snap() == Settle(old(Snap()), i, cand, lb, ub, fobj)
    }

    /** A settled step of agent `i`: its position and fitness follow
        `SettleStep`, the evaluation count grows by one and the best score
        does not increase. */
    twostate predicate Stepped(i: nat)
      reads this, swFit
    {
      && SettleStep(old(Pop), old(swFit[..]), Pop, swFit[..], i)
      && neval == old(neval) + 1 && bestScore <= old(bestScore)
    }

    /** Accept the evaluated position `cv` of agent `i`. */
    method Accept(i: nat, cv: seq<real>, fit: real)
      requires Shape() && Agents() && i < capacity && fit < swFit[i]
      requires InBox(cv, lb, ub) && fit == fobj(cv)
      requires forall r, c :: 0 <= r < capacity && 0 <= c < dim ==>
        positions[r, c] == if r == i then cv[c] else Pop[r][c]
      modifies swFit, this`Pop, this`bestSW, this`bestScore, this`bestIdx
      ensures Shape() && Stored() && Agents()
      ensures Pop == old(Pop)[i := cv]
      ensures swFit[..] == old(swFit[..])[i := fit]
      ensures if fit < old(bestScore) then bestScore == fit && bestSW == cv
              else bestScore == old(bestScore) && bestSW == old(bestSW)
    {
      swFit[i] := fit;
      Pop := Pop[i := cv];
      if fit < bestScore {
        bestScore := fit;
        bestSW := cv;
        bestIdx := i;
      }
    }

    /** Clip row `i` (holding `cand`), evaluate it, and accept it or roll back
        to `oldRow`. */
    method ClipEvaluateAccept(i: nat, oldRow: seq<real>, ghost cand: seq<real>)
      requires Shape() && Agents() && nevalPerFunction == map[fname := neval]
      requires i < capacity && oldRow == Pop[i] && |cand| == dim
      requires forall r, j :: 0 <= r < capacity && 0 <= j < dim ==>
        positions[r, j] == if r == i then cand[j] else Pop[r][j]
      modifies positions, swFit, this`Pop, this`bestSW, this`bestScore, this`bestIdx,
        this`neval, this`nevalPerFunction
      ensures Valid()
      ensures Settled(i, cand) && Stepped(i)
    {
      var row, fit1 := ClipAndEvaluate(i, cand);
      neval := neval + 1;
      nevalPerFunction := nevalPerFunction[fname := nevalPerFunction[fname] + 1];
      if fit1 < swFit[i] {
        Accept(i, row, fit1);
      } else {
        Rollback(i, oldRow);
      }
    }

    /** Clip the stored position of agent `i` into the box and evaluate the result. */
    method ClipAndEvaluate(i: nat, ghost cand: seq<real>) returns (row: seq<real>, fit: real)
      requires Shape() && i < capacity && |cand| == dim && InBox(Pop[i], lb, ub)
      requires forall r, j :: 0 <= r < capacity && 0 <= j < dim ==>
        positions[r, j] == if r == i then cand[j] else Pop[r][j]
      modifies positions
      ensures row == ClipVec(cand, lb, ub) && InBox(row, lb, ub) && fit == fobj(row)
      ensures forall r, j :: 0 <= r < capacity && 0 <= j < dim ==>
        positions[r, j] == if r == i then row[j] else Pop[r][j]
    {
      assert forall j :: 0 <= j < dim ==> lb[j] <= ub[j] by {
        assert InBox(Pop[i], lb, ub);
      }
      ClipVecInBox(cand, lb, ub);
      ClipRow(positions, i, lb, ub);
      row := RowOf(positions, i);
      fit := fobj(row);
    }

    /** Put back the copy of agent `i`'s position taken before its update. */
    method Rollback(i: nat, oldRow: seq<real>)
      requires Shape() && i < capacity && oldRow == Pop[i]
      requires forall r, j :: 0 <= r < capacity && 0 <= j < dim && r != i ==> positions[r, j] == Pop[r][j]
      modifies positions
      ensures Stored()
    {
      WriteRow(positions, i, oldRow);
    }

    /** One Hunting agent of the `n` active ones: update its coordinates in
        place, then clip, evaluate and accept or roll back. */
    method HuntAgent(i: nat, n: nat, jk: seq<nat>, d: HuntDraw, cf: Coefficients)
      requires Valid()
      requires 4 <= n <= capacity && i < n && IsPermutation(jk, n)
      modifies positions, swFit, this`Pop, this`bestSW, this`bestScore, this`bestIdx,
        this`neval, this`nevalPerFunction
      ensures Valid()
      ensures Settled(i, HuntRow(old(Pop), jk, i, n, old(bestSW), lb, ub, d, cf, maths)) && Stepped(i)
    {
      // a copy of the agent's position, kept for a rollback
      var oldRow := RowOf(positions, i);
      assert oldRow == Pop[i];
      HuntInPlace(positions, Pop, i, n, jk, bestSW, lb, ub, d, cf, maths);
      ClipEvaluateAccept(i, oldRow, HuntRow(Pop, jk, i, n, bestSW, lb, ub, d, cf, maths));
    }

    /** One Mating agent of the `n` active ones: build the candidate `SW_m`
        and cross it into the agent's coordinates in place, then clip,
        evaluate and accept or roll back. */
    method MateAgent(i: nat, n: nat, jk: seq<nat>, d: MateDraw, cf: Coefficients)
      requires Valid()
      requires 4 <= n <= capacity && i < n && IsPermutation(jk, n)
      modifies positions, swFit, this`Pop, this`bestSW, this`bestScore, this`bestIdx,
        this`neval, this`nevalPerFunction
      ensures Valid()
      ensures Settled(i, MateRow(old(Pop), old(swFit[..]), jk, i, n, d, cf, maths)) && Stepped(i)
    {
      ghost var cand := MateRow(Pop, swFit[..], jk, i, n, d, cf, maths);
      ghost var target := MateCandidate(Pop, swFit[..], jk, i, n, d, cf, maths);
      var l := StepFactor(cf, d.lRand);
      // a copy of the agent's position, kept for a rollback
      var oldRow := RowOf(positions, i);
      assert oldRow == Pop[i];
      var p1, p2, p3 := RowOf(positions, jk[1]), RowOf(positions, jk[2]), RowOf(positions, jk[3]);
      assert p1 == Pop[jk[1]] && p2 == Pop[jk[2]] && p3 == Pop[jk[3]];
      var v1 := Direction(p1, oldRow, swFit[jk[1]] < swFit[i]);
      var v2 := Direction(p2, p3, swFit[jk[2]] < swFit[jk[3]]);
      var swM := MateInPlace(positions, i, v1, v2, l, d, maths);
      assert swM == target;
      ClipEvaluateAccept(i, oldRow, cand);
    }

    /** The effect of processing agents `0 .. i-1` of an iteration: each was
        settled once, so an agent whose fitness did not strictly drop kept its
        exact position, and agents from `i` on are untouched. */
    twostate predicate Processed(i: nat)
      reads this, swFit
    {
      && neval == old(neval) + i
      && bestScore <= old(bestScore)
      && swFit.Length == capacity
      && Improved(old(Pop), old(swFit[..]), Pop, swFit[..], i)
    }

    /** Agent `i` of a Hunting pass that started from `s0`: the state
        advances from the fold over agents `0 .. i-1`, when it stood there, to
        the fold over `0 .. i`. */
    method HuntNext(ghost s0: Snapshot, i: nat, n: nat, jk: seq<nat>, hunt: nat -> HuntDraw, cf: Coefficients)
      requires Valid()
      requires 4 <= n <= capacity && i < n && IsPermutation(jk, n)
      requires Fits(s0, |lb|) && |s0.pop| == capacity
      modifies positions, swFit, this`Pop, this`bestSW, this`bestScore, this`bestIdx,
        this`neval, this`nevalPerFunction
      ensures Valid()
      ensures old(Snap()) == HuntFold(s0, i, n, jk, hunt, cf, lb, ub, fobj, maths) ==>
        Snap() == HuntFold(s0, i + 1, n, jk, hunt, cf, lb, ub, fobj, maths)
    {
      ghost var q := Snap();
      HuntAgent(i, n, jk, hunt(i), cf);
      assert Snap() == Settle(q, i, HuntRow(q.pop, jk, i, n, q.bestSW, lb, ub, hunt(i), cf, maths), lb, ub, fobj);
    }

    /** The Hunting strategy: the `n` active agents, in index order. */
    method HuntingPass(n: nat, jk: seq<nat>, hunt: nat -> HuntDraw, cf: Coefficients)
      requires Valid()
      requires 4 <= n <= capacity && IsPermutation(jk, n)
      modifies positions, swFit, this`Pop, this`bestSW, this`bestScore, this`bestIdx,
        this`neval, this`nevalPerFunction
      ensures Valid() && Processed(n)
      ensures Snap() == HuntFold(old(Snap()), n, n, jk, hunt, cf, lb, ub, fobj, maths)
    {
      var i := 0;
      while i < n
        invariant 0 <= i <= n
        invariant Valid()
        invariant Snap() == HuntFold(old(Snap()), i, n, jk, hunt, cf, lb, ub, fobj, maths)
      {
        HuntNext(old(Snap()), i, n, jk, hunt, cf);
        i := i + 1;
      }
    }

    /** Agent `i` of a Mating pass that started from `s0`: the state
        advances from the fold over agents `0 .. i-1`, when it stood there, to
        the fold over `0 .. i`. */
    method MateNext(ghost s0: Snapshot, i: nat, n: nat, jk: seq<nat>, mate: nat -> MateDraw, cf: Coefficients)
      requires Valid()
      requires 4 <= n <= capacity && i < n && IsPermutation(jk, n)
      requires Fits(s0, |lb|) && |s0.pop| == capacity
      modifies positions, swFit, this`Pop, this`bestSW, this`bestScore, this`bestIdx,
        this`neval, this`nevalPerFunction
      ensures Valid()
      ensures old(Snap()) == MateFold(s0, i, n, jk, mate, cf, lb, ub, fobj, maths) ==>
        Snap() == MateFold(s0, i + 1, n, jk, mate, cf, lb, ub, fobj, maths)
    {
      ghost var q := Snap();
      MateAgent(i, n, jk, mate(i), cf);
      assert Snap() == Settle(q, i, MateRow(q.pop, q.fit, jk, i, n, mate(i), cf, maths), lb, ub, fobj);
    }

    /** The Mating strategy: the `n` active agents, in index order. */
    method MatingPass(n: nat, jk: seq<nat>, mate: nat -> MateDraw, cf: Coefficients)
      requires Valid()
      requires 4 <= n <= capacity && IsPermutation(jk, n)
      modifies positions, swFit, this`Pop, this`bestSW, this`bestScore, this`bestIdx,
        this`neval, this`nevalPerFunction
      ensures Valid() && Processed(n)
      ensures Snap() == MateFold(old(Snap()), n, n, jk, mate, cf, lb, ub, fobj, maths)
    {
      var i := 0;
      while i < n
        invariant 0 <= i <= n
        invariant Valid()
        invariant Snap() == MateFold(old(Snap()), i, n, jk, mate, cf, lb, ub, fobj, maths)
      {
        MateNext(old(Snap()), i, n, jk, mate, cf);
        i := i + 1;
      }
    }
    /** One iteration's pass over the `n` active agents with the strategy
        the coin picks. */
    method Pass(n: nat, jk: seq<nat>, coin: real, hunt: nat -> HuntDraw, mate: nat -> MateDraw, cf: Coefficients)
      requires Valid()
      requires 4 <= n <= capacity && IsPermutation(jk, n)
      modifies positions, swFit, this`Pop, this`bestSW, this`bestScore, this`bestIdx,
        this`neval, this`nevalPerFunction
      ensures Valid() && Processed(n)
      ensures Snap() == PassFold(old(Snap()), n, jk, coin, hunt, mate, cf, lb, ub, fobj, maths)
    {
      if coin < TR {
        HuntingPass(n, jk, hunt, cf);
      } else {
        MatingPass(n, jk, mate, cf);
      }
    }
  }
}
