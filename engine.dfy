/** The Spider Wasp Optimizer main loop: the iteration state, one pass of the
    loop, and the whole run `Swo`. */
module Engine {
  import opened Numeric
  import opened Schedule
  import opened Trace
  import opened Updates
  import opened Agents

  datatype Option<T> = None | Some(value: T)
  datatype Result<T, E> = Success(value: T) | Failure(error: E)

  /** The configuration the engine refuses before the loop starts. */
  datatype ConfigError = PopulationBelowMinimum(searchAgentsNo: nat)

  /** Default stall threshold and stall limit of the engine's signature. */
  const DEFAULT_TOL: real := 0.0000000001
  const DEFAULT_MAX_STALL: int := 300
  /** Default bounds when `ub` / `lb` are not given. */
  const DEFAULT_UB: real := 512.0
  const DEFAULT_LB: real := -512.0

  /** The returned tuple: best score, best position, the convergence trace of
      the completed iterations, the total evaluation count and the count per
      objective name. */
  datatype SwoOutput = SwoOutput(
    bestScore: real, bestSW: seq<real>, convergenceCurve: seq<real>,
    neval: nat, nevalPerFunction: map<string, nat>)

  /** The random source of a run, indexed by the 0-based iteration and, for
      the per-agent draws, by the agent: `np.random.permutation`, the strategy
      coin, and the draws of each Hunting or Mating agent. */
  datatype RandomSource = RandomSource(
    permutation: (nat, nat) -> seq<nat>,
    strategy: nat -> real,
    hunting: nat -> nat -> HuntDraw,
    mating: nat -> nat -> MateDraw)

  /** `permutation(t, n)` is a permutation of `0 .. n-1`. */
  ghost predicate ValidSource(rs: RandomSource) {
    forall t: nat, n: nat :: IsPermutation(rs.permutation(t, n), n)
  }

  /** A given bound, or the default one of length `dim`. */
  function BoundOr(b: Option<seq<real>>, dim: nat, default: real): (r: seq<real>)
    requires b.Some? ==> |b.value| == dim
    ensures |r| == dim
    ensures b.Some? ==> r == b.value
    ensures b.None? ==> forall j :: 0 <= j < dim ==> r[j] == default
  {
    if b.Some? then b.value else seq(dim, _ => default)
  }

  /** The population after the first `k` iterations of a run that started
      from `s` with `n0` agents and is driven by `rs`. */
  ghost function RunFold(s: Snapshot, n0: nat, tmax: nat, k: nat, rs: RandomSource,
                         lb: seq<real>, ub: seq<real>, fobj: seq<real> -> real, m: Maths): (r: Snapshot)
    requires Fits(s, |lb|) && |ub| == |lb| && N_MIN <= n0 <= |s.pop| && ValidSource(rs) && k <= tmax
    ensures Fits(r, |lb|) && |r.pop| == |s.pop|
    ensures r.neval == s.neval + IterationEvaluations(n0, tmax, k) && r.bestScore <= s.bestScore
    decreases k, 1
  {
    if k == 0 then s else AfterIteration(s, n0, tmax, k - 1, rs, lb, ub, fobj, m)
  }

  /** The population once iteration `it` of that run is done: on the
      population the earlier iterations left, the pass the coin
      `rs.strategy(it)` picks, over the `ActiveSize(n0, tmax, it)` active
      agents, with the permutation and per-agent draws of `rs` for that
      iteration and the schedule factors of `it`. */
  ghost function AfterIteration(s: Snapshot, n0: nat, tmax: nat, it: nat, rs: RandomSource,
                                lb: seq<real>, ub: seq<real>, fobj: seq<real> -> real, m: Maths): (r: Snapshot)
    requires Fits(s, |lb|) && |ub| == |lb| && N_MIN <= n0 <= |s.pop| && ValidSource(rs) && it < tmax
    ensures Fits(r, |lb|) && |r.pop| == |s.pop|
    ensures r.neval == s.neval + IterationEvaluations(n0, tmax, it + 1) && r.bestScore <= s.bestScore
    decreases it + 1, 0
  {
    var q := RunFold(s, n0, tmax, it, rs, lb, ub, fobj, m);
    var n := ActiveSize(n0, tmax, it);
    ActiveSizeBounds(n0, tmax, it);
    var jk := rs.permutation(it, n);
    assert IsPermutation(jk, n);
    PassFold(q, n, jk, rs.strategy(it), rs.hunting(it), rs.mating(it), CoefficientsAt(it, tmax), lb, ub, fobj, m)
  }

  /** No iteration raises the best score. */
  lemma RunFoldStepImproves(s: Snapshot, n0: nat, tmax: nat, k: nat, rs: RandomSource,
                            lb: seq<real>, ub: seq<real>, fobj: seq<real> -> real, m: Maths)
    requires Fits(s, |lb|) && |ub| == |lb| && N_MIN <= n0 <= |s.pop| && ValidSource(rs) && k < tmax
    ensures RunFold(s, n0, tmax, k + 1, rs, lb, ub, fobj, m).bestScore <= RunFold(s, n0, tmax, k, rs, lb, ub, fobj, m).bestScore
  {
    RunFoldStep(s, n0, tmax, k, rs, lb, ub, fobj, m);
  }

  /** One more iteration of `RunFold` is the pass of iteration `k` on the
      population of the first `k`. */
  lemma RunFoldStep(s: Snapshot, n0: nat, tmax: nat, k: nat, rs: RandomSource,
                    lb: seq<real>, ub: seq<real>, fobj: seq<real> -> real, m: Maths)
    requires Fits(s, |lb|) && |ub| == |lb| && N_MIN <= n0 <= |s.pop| && ValidSource(rs) && k < tmax
    ensures N_MIN <= ActiveSize(n0, tmax, k) <= n0
    ensures RunFold(s, n0, tmax, k + 1, rs, lb, ub, fobj, m) ==
      PassFold(RunFold(s, n0, tmax, k, rs, lb, ub, fobj, m), ActiveSize(n0, tmax, k),
               rs.permutation(k, ActiveSize(n0, tmax, k)), rs.strategy(k), rs.hunting(k), rs.mating(k),
               CoefficientsAt(k, tmax), lb, ub, fobj, m)
  {
    ActiveSizeBounds(n0, tmax, k);
  }

  /** The best score after each of the first `k` iterations of `RunFold`;
      the last entry is the current best. */
  ghost function BestTrace(s: Snapshot, n0: nat, tmax: nat, k: nat, rs: RandomSource,
                           lb: seq<real>, ub: seq<real>, fobj: seq<real> -> real, m: Maths): (h: seq<real>)
    requires Fits(s, |lb|) && |ub| == |lb| && N_MIN <= n0 <= |s.pop| && ValidSource(rs) && k <= tmax
    ensures |h| == k
    ensures 0 < k ==> h[k - 1] == RunFold(s, n0, tmax, k, rs, lb, ub, fobj, m).bestScore
    decreases k
  {
    if k == 0 then []
    else BestTrace(s, n0, tmax, k - 1, rs, lb, ub, fobj, m) + [RunFold(s, n0, tmax, k, rs, lb, ub, fobj, m).bestScore]
  }

  /** Entry `i` of the trace is the best score once iteration `i` is done. */
  lemma {:induction false} BestTraceEntry(s: Snapshot, n0: nat, tmax: nat, k: nat, rs: RandomSource,
                                          lb: seq<real>, ub: seq<real>, fobj: seq<real> -> real, m: Maths, i: nat)
    requires Fits(s, |lb|) && |ub| == |lb| && N_MIN <= n0 <= |s.pop| && ValidSource(rs) && k <= tmax
    requires i < k
    ensures BestTrace(s, n0, tmax, k, rs, lb, ub, fobj, m)[i] == RunFold(s, n0, tmax, i + 1, rs, lb, ub, fobj, m).bestScore
    decreases k
  {
    if i < k - 1 {
      BestTraceEntry(s, n0, tmax, k - 1, rs, lb, ub, fobj, m, i);
      assert BestTrace(s, n0, tmax, k, rs, lb, ub, fobj, m)[i] == BestTrace(s, n0, tmax, k - 1, rs, lb, ub, fobj, m)[i];
    }
  }

  /** After `k` iterations of the run from `s0` driven by `rs`, the
      population is `snap` and the recorded trace is `curve`. */
  ghost predicate OnRun(s0: Snapshot, n0: nat, tmax: nat, k: nat, rs: RandomSource, lb: seq<real>, ub: seq<real>,
                        fobj: seq<real> -> real, m: Maths, snap: Snapshot, curve: seq<real>) {
    && Fits(s0, |lb|) && |ub| == |lb| && N_MIN <= n0 <= |s0.pop| && ValidSource(rs) && k <= tmax
    && snap == RunFold(s0, n0, tmax, k, rs, lb, ub, fobj, m)
    && curve == BestTrace(s0, n0, tmax, k, rs, lb, ub, fobj, m)
  }

  /** The pass of iteration `it`, on the population the first `it` iterations
      of the run leave, extends the run by one iteration and its trace by the
      new best score. */
  lemma OnRunStep(s0: Snapshot, n0: nat, tmax: nat, it: nat, rs: RandomSource, lb: seq<real>, ub: seq<real>,
                  fobj: seq<real> -> real, m: Maths, q: Snapshot, c: seq<real>, n: nat, r: Snapshot)
    requires OnRun(s0, n0, tmax, it, rs, lb, ub, fobj, m, q, c) && it < tmax
    requires n == ActiveSize(n0, tmax, it) && N_MIN <= n <= n0
    requires r == PassFold(q, n, rs.permutation(it, n), rs.strategy(it), rs.hunting(it), rs.mating(it),
                           CoefficientsAt(it, tmax), lb, ub, fobj, m)
    ensures OnRun(s0, n0, tmax, it + 1, rs, lb, ub, fobj, m, r, c + [r.bestScore])
  {
    RunFoldStep(s0, n0, tmax, it, rs, lb, ub, fobj, m);
  }

  /** `o` reports the run from `s0` driven by `rs` over as many iterations
      as its trace has entries: its trace is `BestTrace`, and its best
      position, best score and evaluation count are those `RunFold` reaches. */
  ghost predicate Reports(o: SwoOutput, s0: Snapshot, n0: nat, tmax: nat, rs: RandomSource, lb: seq<real>, ub: seq<real>,
                          fobj: seq<real> -> real, m: Maths) {
    && Fits(s0, |lb|) && |ub| == |lb| && N_MIN <= n0 <= |s0.pop| && ValidSource(rs) && |o.convergenceCurve| <= tmax
    && o.convergenceCurve == BestTrace(s0, n0, tmax, |o.convergenceCurve|, rs, lb, ub, fobj, m)
    && var s := RunFold(s0, n0, tmax, |o.convergenceCurve|, rs, lb, ub, fobj, m);
       o.bestSW == s.bestSW && o.bestScore == s.bestScore && o.neval == s.neval
  }

  /** The loop state after `t` completed iterations of a run that started
      with `n0` agents and best score `b0`: `size` is the active size, `neval`
      counts the initial and the per-iteration evaluations, the first `t`
      entries of `curve` record the best score after each iteration (the rest
      are still zero), the history is non-increasing and ends in `best`, and
      `stall` is the stall counter of that history. */
  ghost predicate Recorded(n0: nat, tmax: nat, t: nat, size: nat, neval: nat, curve: seq<real>, b0: real,
                           best: real, prev: real, stall: nat, tol: real) {
    && N_MIN <= n0 && t <= tmax && |curve| == tmax
    && size == ActiveSize(n0, tmax, t) && N_MIN <= size <= n0
    && neval == n0 + IterationEvaluations(n0, tmax, t)
    && (forall k :: t <= k < tmax ==> curve[k] == 0.0)
    && NonIncreasing([b0] + curve[..t])
    && ([b0] + curve[..t])[t] == best
    && prev == best
    && stall == StallRun([b0] + curve[..t], tol)
  }

  /** Before the first iteration: all `n0` agents active and evaluated once,
      an all-zero trace, and the initial best as the whole history. */
  lemma RecordedAtStart(n0: nat, tmax: nat, curve: seq<real>, b0: real, tol: real)
    requires N_MIN <= n0 && |curve| == tmax && forall k :: 0 <= k < tmax ==> curve[k] == 0.0
    ensures Recorded(n0, tmax, 0, n0, n0, curve, b0, b0, b0, 0, tol)
  {
    assert [b0] + curve[..0] == [b0];
  }

  /** Writing entry `t` of the trace extends its first `t` entries by one. */
  lemma TraceAppend(curve: seq<real>, t: nat, x: real)
    requires t < |curve|
    ensures curve[t := x][..t + 1] == curve[..t] + [x]
  {
    assert forall k :: 0 <= k <= t ==> curve[t := x][..t + 1][k] == (curve[..t] + [x])[k];
  }

  /** The end of an iteration that spent `size` evaluations and brought the
      best score down to `best1`: the bookkeeping of `t + 1` iterations
      holds for the new counter, trace entry, stall counter and shrunk size. */
  lemma RecordStep(n0: nat, tmax: nat, t: nat, size: nat, neval: nat, curve: seq<real>, b0: real,
                   best: real, prev: real, stall: nat, tol: real, best1: real)
    requires Recorded(n0, tmax, t, size, neval, curve, b0, best, prev, stall, tol)
    requires t < tmax && best1 <= best
    ensures N_MIN <= Shrink(size, t + 1, tmax) <= size
    ensures [b0] + curve[t := best1][..t + 1] == [b0] + curve[..t] + [best1]
    ensures Recorded(n0, tmax, t + 1, Shrink(size, t + 1, tmax), neval + size, curve[t := best1], b0,
                     best1, best1, if Abs(prev - best1) < tol then stall + 1 else 0, tol)
  {
    var h := [b0] + curve[..t];
    ActiveSizeBounds(n0, tmax, t);
    ShrinkWithinBounds(size, t + 1, tmax);
    assert curve[t := best1][..t + 1] == curve[..t] + [best1];
    assert [b0] + curve[t := best1][..t + 1] == h + [best1];
    AppendKeepsNonIncreasing(h, best1);
    StallRunStep(h, best1, tol);
  }

  /** The state of the main loop around a population. */
  class Optimizer {
    const tmax: nat
    const tol: real
    const maxStall: int
    const pop: Population
    /** The convergence trace: `Tmax` zeros, filled one entry per completed iteration. */
    const convergenceCurve: array<real>

    var t: nat
    var stallCount: nat
    var prevBestScore: real
    /** The active population size of the current iteration. */
    var searchAgentsNo: nat

    /** The best score of the initial population. */
    ghost const initialBest: real

    /** The initial best score followed by the trace of the completed iterations. */
    ghost function History(): seq<real>
      reads this, convergenceCurve
      requires t <= convergenceCurve.Length
    {
      [initialBest] + convergenceCurve[..t]
    }

    /** Active size, evaluation count, convergence trace and stall counter
        agree with the iterations done. */
    ghost predicate Bookkeeping()
      reads this, pop, convergenceCurve
    {
      && convergenceCurve.Length == tmax && convergenceCurve != pop.swFit
      && Recorded(pop.capacity, tmax, t, searchAgentsNo, pop.neval, convergenceCurve[..], initialBest,
                  pop.bestScore, prevBestScore, stallCount, tol)
    }

    ghost predicate Valid()
      reads this, pop, pop.positions, pop.swFit, convergenceCurve
    {
      pop.Valid() && Bookkeeping()
    }

    /** Evaluate the initial population and set up the loop state before the
        first iteration. */
    constructor (init: seq<seq<real>>, tmax0: nat, lb: seq<real>, ub: seq<real>, dim: nat,
                 fobj: seq<real> -> real, fname: string, tol0: real, maxStall0: int, maths: Maths)
      requires N_MIN <= |init| && |lb| == dim && |ub| == dim
      requires forall i :: 0 <= i < |init| ==> InBox(init[i], lb, ub)
      ensures Valid() && fresh(pop) && fresh(pop.positions) && fresh(pop.swFit) && fresh(convergenceCurve)
      ensures tmax == tmax0 && tol == tol0 && maxStall == maxStall0 && t == 0
      ensures pop.dim == dim && pop.lb == lb && pop.ub == ub && pop.fobj == fobj && pop.fname == fname
      ensures pop.capacity == |init| && pop.Pop == init
      ensures initialBest == pop.bestScore == MinOf(Fitnesses(fobj, init))
      ensures pop.maths == maths
      ensures pop.bestIdx < |init| && pop.bestSW == init[pop.bestIdx]
      ensures forall r :: 0 <= r < pop.bestIdx ==> pop.bestScore < Fitnesses(fobj, init)[r]
      ensures pop.Snap() == InitialSnap(init, fobj)
    {
      var curve := new real[tmax0](_ => 0.0);
      var p := new Population(init, lb, ub, dim, fobj, fname, maths);
      tmax, tol, maxStall, pop, convergenceCurve := tmax0, tol0, maxStall0, p, curve;
      t, stallCount := 0, 0;
      prevBestScore := p.bestScore;
      searchAgentsNo := |init|;
      initialBest := p.bestScore;
      new;
      RecordedAtStart(|init|, tmax0, curve[..], p.bestScore, tol0);
    }

    /** One pass of the main loop: choose a strategy, process every active
        agent, then record the trace, update the stall counter and shrink the
        active population. */
    method Iterate(jk: seq<nat>, coin: real, hunt: nat -> HuntDraw, mate: nat -> MateDraw)
      requires Valid() && t < tmax
      requires IsPermutation(jk, searchAgentsNo)
      modifies this, convergenceCurve, pop, pop.positions, pop.swFit
      ensures Valid()
      ensures t == old(t) + 1
      ensures convergenceCurve[..] == old(convergenceCurve[..])[old(t) := pop.bestScore]
      ensures History() == old(History()) + [pop.bestScore]
      ensures pop.Processed(old(searchAgentsNo))
      ensures pop.Snap() == PassFold(old(pop.Snap()), old(searchAgentsNo), jk, coin, hunt, mate,
                                     CoefficientsAt(old(t), tmax), pop.lb, pop.ub, pop.fobj, pop.maths)
      ensures stallCount == if Abs(old(prevBestScore) - pop.bestScore) < tol then old(stallCount) + 1 else 0
      ensures prevBestScore == pop.bestScore
      ensures searchAgentsNo == Shrink(old(searchAgentsNo), t, tmax) <= old(searchAgentsNo)
    {
      ghost var neval0, best0 := pop.neval, pop.bestScore;
      var cf := CoefficientsAt(t, tmax);
      pop.Pass(searchAgentsNo, jk, coin, hunt, mate, cf);
      EndOfIteration(neval0, best0);
    }

    /** `t += 1`, record the best score, update the stall counter and the
        previous best, and shrink the active population. `neval0` and `best0`
        are the evaluation count and best score before the iteration's pass. */
    method EndOfIteration(ghost neval0: nat, ghost best0: real)
      requires pop.Valid() && t < tmax
      requires convergenceCurve.Length == tmax && convergenceCurve != pop.swFit
      requires Recorded(pop.capacity, tmax, t, searchAgentsNo, neval0, convergenceCurve[..], initialBest,
                        best0, prevBestScore, stallCount, tol)
      requires pop.neval == neval0 + searchAgentsNo && pop.bestScore <= best0
      modifies this`t, this`stallCount, this`prevBestScore, this`searchAgentsNo, convergenceCurve
      ensures Valid()
      ensures t == old(t) + 1
      ensures convergenceCurve[..] == old(convergenceCurve[..])[old(t) := pop.bestScore]
      ensures History() == old(History()) + [pop.bestScore]
      ensures stallCount == if Abs(old(prevBestScore) - pop.bestScore) < tol then old(stallCount) + 1 else 0
      ensures prevBestScore == pop.bestScore
      ensures searchAgentsNo == Shrink(old(searchAgentsNo), t, tmax) <= old(searchAgentsNo)
    {
      RecordStep(pop.capacity, tmax, t, searchAgentsNo, neval0, convergenceCurve[..], initialBest,
                 best0, prevBestScore, stallCount, tol, pop.bestScore);
      var stall := if Abs(prevBestScore - pop.bestScore) < tol then stallCount + 1 else 0;
      var shrunk := Shrink(searchAgentsNo, t + 1, tmax);
      convergenceCurve[t] := pop.bestScore;
      t, stallCount, prevBestScore, searchAgentsNo := t + 1, stall, pop.bestScore, shrunk;
      assert pop.Valid();
      assert Bookkeeping();
      assert convergenceCurve[..t] == convergenceCurve[..][..t];
    }

    /** Iteration `t` of a run from `s0` driven by `rs`: the pass with the
        permutation, coin and draws of that iteration. When the population
        and the trace stood where the first `t` iterations of that run leave
        them, they end where the first `t + 1` leave them. */
    method Advance(ghost s0: Snapshot, rs: RandomSource)
      requires Valid() && t < tmax && ValidSource(rs)
      modifies this, convergenceCurve, pop, pop.positions, pop.swFit
      ensures Valid() && t == old(t) + 1
      ensures convergenceCurve[..] == old(convergenceCurve[..])[old(t) := pop.bestScore]
      ensures History() == old(History()) + [pop.bestScore]
      ensures convergenceCurve[..t] == old(convergenceCurve[..t]) + [pop.bestScore]
      ensures OnRun(s0, pop.capacity, tmax, old(t), rs, pop.lb, pop.ub, pop.fobj, pop.maths,
                    old(pop.Snap()), old(convergenceCurve[..t])) ==>
        OnRun(s0, pop.capacity, tmax, t, rs, pop.lb, pop.ub, pop.fobj, pop.maths, pop.Snap(), convergenceCurve[..t])
    {
      var it := t;
      ghost var q, c := pop.Snap(), convergenceCurve[..t];
      var n := searchAgentsNo;
      Iterate(rs.permutation(it, n), rs.strategy(it), rs.hunting(it), rs.mating(it));
      ghost var r := pop.Snap();
      assert convergenceCurve[..t] == convergenceCurve[..][..t];
      TraceAppend(old(convergenceCurve[..]), it, r.bestScore);
      assert r == PassFold(q, n, rs.permutation(it, n), rs.strategy(it), rs.hunting(it), rs.mating(it),
                           CoefficientsAt(it, tmax), pop.lb, pop.ub, pop.fobj, pop.maths);
      if OnRun(s0, pop.capacity, tmax, it, rs, pop.lb, pop.ub, pop.fobj, pop.maths, q, c) {
        OnRunStep(s0, pop.capacity, tmax, it, rs, pop.lb, pop.ub, pop.fobj, pop.maths, q, c, n, r);
      }
    }

    /** The main loop, from the state before the first iteration:
        it goes on while fewer than `Tmax` iterations are done and the stall counter is
        below its limit. */
    method Run(rs: RandomSource)
      requires Valid() && t == 0 && ValidSource(rs)
      modifies this, convergenceCurve, pop, pop.positions, pop.swFit
      ensures Valid() && t <= tmax
      ensures t < tmax ==> maxStall <= stallCount
      ensures NeverStalled(History(), tol, maxStall)
      ensures pop.bestScore <= initialBest
      ensures OnRun(old(pop.Snap()), pop.capacity, tmax, t, rs, pop.lb, pop.ub, pop.fobj, pop.maths,
                    pop.Snap(), convergenceCurve[..t])
    {
      ghost var s0 := pop.Snap();
      assert convergenceCurve[..t] == [];
      while t < tmax && stallCount < maxStall
        invariant Valid()
        invariant NeverStalled(History(), tol, maxStall)
        invariant OnRun(s0, pop.capacity, tmax, t, rs, pop.lb, pop.ub, pop.fobj, pop.maths, pop.Snap(), convergenceCurve[..t])
        decreases tmax - t
      {
        ghost var h := History();
        assert StallRun(h, tol) < maxStall;
        Advance(s0, rs);
        NeverStalledStep(h, pop.bestScore, tol, maxStall);
      }
      assert History()[0] == initialBest;
    }
  }

  /** `swo(search_agents_no, Tmax, ub, lb, dim, fobj, tol, max_stall)` on the
      initial population `init`, with objective name `fname`, the maths
      oracle `maths` and the random source `rs`. */
  method Swo(searchAgentsNo: nat, tmax: nat, ub: Option<seq<real>>, lb: Option<seq<real>>, dim: nat,
             fobj: seq<real> -> real, fname: string,
             tol: real := DEFAULT_TOL, maxStall: int := DEFAULT_MAX_STALL,
             maths: Maths, init: seq<seq<real>>, rs: RandomSource)
    returns (res: Result<SwoOutput, ConfigError>)
    requires ub.Some? ==> |ub.value| == dim
    requires lb.Some? ==> |lb.value| == dim
    requires |init| == searchAgentsNo
    requires forall i :: 0 <= i < |init| ==> InBox(init[i], BoundOr(lb, dim, DEFAULT_LB), BoundOr(ub, dim, DEFAULT_UB))
    requires ValidSource(rs)
    ensures res.Failure? <==> searchAgentsNo < N_MIN
    ensures res.Failure? ==> res.error == PopulationBelowMinimum(searchAgentsNo)
    ensures res.Success? ==>
      var o := res.value;
      var h := [MinOf(Fitnesses(fobj, init))] + o.convergenceCurve;
      && |o.bestSW| == dim
      && InBox(o.bestSW, BoundOr(lb, dim, DEFAULT_LB), BoundOr(ub, dim, DEFAULT_UB))
      && (ub.None? ==> forall j :: 0 <= j < dim ==> o.bestSW[j] <= DEFAULT_UB)
      && (lb.None? ==> forall j :: 0 <= j < dim ==> DEFAULT_LB <= o.bestSW[j])
      && fobj(o.bestSW) == o.bestScore
      && (forall i :: 0 <= i < |init| ==> o.bestScore <= fobj(init[i]))
      && |o.convergenceCurve| <= tmax
      && NonIncreasing(h) && h[|o.convergenceCurve|] == o.bestScore
      && o.neval == searchAgentsNo + IterationEvaluations(searchAgentsNo, tmax, |o.convergenceCurve|)
      && o.nevalPerFunction == map[fname := o.neval]
      && (|o.convergenceCurve| < tmax ==> maxStall <= StallRun(h, tol))
      && (forall k :: 0 < k <= |o.convergenceCurve| ==> StallRun(h[..k], tol) < maxStall)
    ensures res.Success? ==>
      Reports(res.value, InitialSnap(init, fobj), searchAgentsNo, tmax, rs,
              BoundOr(lb, dim, DEFAULT_LB), BoundOr(ub, dim, DEFAULT_UB), fobj, maths)
  {
    if searchAgentsNo < N_MIN {
      return Failure(PopulationBelowMinimum(searchAgentsNo));
    }
    var lo := BoundOr(lb, dim, DEFAULT_LB);
    var hi := BoundOr(ub, dim, DEFAULT_UB);
    var e := new Optimizer(init, tmax, lo, hi, dim, fobj, fname, tol, maxStall, maths);
    ghost var b0 := e.initialBest;
    MinOfIsLeastElement(Fitnesses(fobj, init), b0);
    assert forall i :: 0 <= i < |init| ==> b0 <= fobj(init[i]) by {
      assert forall i :: 0 <= i < |init| ==> Fitnesses(fobj, init)[i] == fobj(init[i]);
    }
    e.Run(rs);
    var p := e.pop;
    assert p.Pop[p.bestIdx] == p.bestSW;
    res := Success(SwoOutput(p.bestScore, p.bestSW, e.convergenceCurve[..e.t], p.neval, p.nevalPerFunction));
    assert e.History() == [b0] + e.convergenceCurve[..e.t];
  }
}
