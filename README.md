# Spider Wasp Optimizer engine in Dafny

This project models `swo`, the Spider Wasp Optimizer (SWO) engine of the
repository. SWO is a population-based minimiser of a black-box objective over
a box `[lb, ub]^dim`.

- A population of search agents (positions) is evaluated once at the start.
- Each iteration then chooses one strategy by a coin, `TR = 0.5`, and applies
  it to every agent that is still active:
  - Hunting moves each coordinate by one of six formulas.
  - Mating crosses the position with a candidate built from difference vectors
    (crossover rate `Cr = 0.3`).
- After every agent update:
  - the position is clipped into the box;
  - it is evaluated once;
  - it is kept only when its fitness is strictly lower; otherwise it is
    rolled back to the saved copy.
- The best position and score follow an accepted fitness only when it is
  below the best score so far.
- At the end of each iteration the engine:
  - records the best score in the convergence trace;
  - counts a stall when the best score moved by less than `tol`;
  - shrinks the active size with
    `max(N_min, int(N_min + (n - N_min) * ((Tmax - t) / Tmax)))`.
- The run stops after `Tmax` iterations or after `max_stall` consecutive
  stalls. It returns:
  - the best score and position;
  - the trace of the completed iterations;
  - the evaluation count, in total and per objective name.

Layout:

- `numeric.dfy` (module `Numeric`): absolute value, the truncation of
  Python's `int()`, the minimum of a sequence (`np.min`).
- `schedule.dfy` (module `Schedule`): the shrink rule, the active size it
  produces iteration by iteration, and the evaluations those sizes add up to.
- `trace.dfy` (module `Trace`): the history of best scores and the stall
  counter as functions of that history.
- `updates.dfy` (module `Updates`): the coordinate formulas of both
  strategies and `np.clip`, on values.
- `population.dfy` (module `Agents`): class `Population`.
  - It holds the positions in an `array2<real>`, the fitness values in an
    `array<real>`, the best position and score, and the evaluation counters.
  - It has a ghost mirror `Pop` of the positions.
  - Its methods update one agent in place (coordinate loop, clip, evaluate,
    accept or roll back) and run one strategy over the active agents.
- `engine.dfy` (module `Engine`): class `Optimizer`.
  - It holds the iteration counter, the stall counter, the previous best,
    the active size and the trace buffer.
  - Its methods are one pass of the main loop and the loop itself.
  - The module also holds `Swo`, the whole run.

The inputs are modelled as follows:

- The random draws come from an input `RandomSource`: the permutation `JK`,
  the strategy coin, and each agent's draws.
- `np.exp` and `np.cos(2 pi x)` come from an input `Maths`.
- The objective is a total function `seq<real> -> real`, with its name given
  as a string.
- The initial population is an input.

The shrink uses `int()`, which truncates toward zero, and the model truncates
in the same way.

## Model

| member | source | states |
|---|---|---|
| Numeric.Trunc | sw_optimizer/sw_optimizer.py:144 | `int()` truncates toward zero: the result is the largest integer not above a non-negative value, and the smallest not below a negative one |
| Numeric.MinOfIsLeastElement | sw_optimizer/sw_optimizer.py:31 | `m` is `np.min` of a non-empty sequence exactly when `m` occurs in the sequence and no entry is below it |
| Numeric.FirstMinIndex | sw_optimizer/sw_optimizer.py:31-32 | the index `np.argmin` picks: it holds `np.min` of the sequence, and every earlier entry is strictly greater |
| Numeric.FirstMinIndexUnique | sw_optimizer/sw_optimizer.py:32 | an index holding a least entry, with every earlier entry strictly greater, is that index: `np.argmin` is determined |
| Agents.ArgMin | sw_optimizer/sw_optimizer.py:32 | `np.argmin` returns an index of a least fitness, and no earlier index holds a value that small (the first minimum) |
| Schedule.Shrink | sw_optimizer/sw_optimizer.py:144 | the active size after a shrink is never below `N_min = 20` |
| Schedule.ShrinkWithinBounds | sw_optimizer/sw_optimizer.py:144 | from a size `n >= N_min`, a shrink lands in `[N_min, n]`, and the last iteration (`t == Tmax`) brings it to `N_min` |
| Schedule.ShrinkExceedsStorage | sw_optimizer/sw_optimizer.py:144 | as written, 10 agents with `Tmax = 100` get an active size of 20 after the first iteration, more than the agents stored |
| Schedule.ActiveSizeBounds | sw_optimizer/sw_optimizer.py:144 | when a run starts with `n0 >= N_min`, the recursively shrunk active size of every iteration stays in `[N_min, n0]` |
| Schedule.ActiveSizeNonIncreasing | sw_optimizer/sw_optimizer.py:144 | the active size of a later iteration is at most that of an earlier one |
| Schedule.IterationEvaluationsBounds | sw_optimizer/sw_optimizer.py:83-84 | `k` iterations spend between `k * N_min` and `k * n0` objective evaluations |
| Trace.AppendKeepsNonIncreasing | sw_optimizer/sw_optimizer.py:133 | recording a best score no larger than the last one keeps the trace non-increasing |
| Trace.StallRun | sw_optimizer/sw_optimizer.py:136-139 | the stall counter of a history of `m` entries is below `m` |
| Trace.StallRunStep | sw_optimizer/sw_optimizer.py:136-139 | the counter after one more iteration is the old counter plus one when the best score moved by less than `tol`, and 0 otherwise |
| Trace.StallRunCountsSmallSteps | sw_optimizer/sw_optimizer.py:135-141 | the counter is at least `m` exactly when each of the last `m` iterations moved the best score by less than `tol` (both directions) |
| Trace.NeverStalledStep | sw_optimizer/sw_optimizer.py:39 | after an iteration entered with a stall counter below `max_stall`, every earlier loop check still passed |
| Updates.CoefficientsAt | sw_optimizer/sw_optimizer.py:41-43 | `a = 2k` and `a2 = k - 2`; while `t <= Tmax` the schedule factors stay in range: `k` in `[0, 1]`, `a` in `[0, 2]`, `a2` in `[-2, -1]`; they start at `(2, -1, 1)` and reach `(0, -2, 0)` at `t = Tmax` |
| Updates.HuntRow | sw_optimizer/sw_optimizer.py:58-77 | coordinate `j` of a Hunting agent's new position is the branch formula applied to column `j` of the agent, of `JK[1]`, `JK[2]`, `JK[3]`, `JK[i]` and of `Best_SW`, all as they stood before the agent's update |
| Updates.MateCandidate | sw_optimizer/sw_optimizer.py:98-110 | `SW_m[j]` is the mating formula on the agent's coordinate with `v1 = JK[1] - i` when `JK[1]` has the lower `SW_Fit` and `i - JK[1]` otherwise, and `v2 = JK[2] - JK[3]` when `JK[2]` has the lower `SW_Fit` and `JK[3] - JK[2]` otherwise, all on the population before the agent's update |
| Updates.MateRow | sw_optimizer/sw_optimizer.py:109-113 | a coordinate whose crossover draw is below `Cr` takes the candidate `SW_m[j]`, every other keeps the agent's own |
| Updates.Clip | sw_optimizer/sw_optimizer.py:80 | in a non-empty interval the clipped value lies in the interval, and it equals the input exactly when the input already lies there |
| Updates.ClipVecInBox | sw_optimizer/sw_optimizer.py:116 | clipping a position into a non-empty box lands in the box and leaves a position already inside unchanged |
| Agents.StorePositions | sw_optimizer/sw_optimizer.py:24 | the position array holds the initial population, agent by agent and coordinate by coordinate |
| Agents.EvaluateAll | sw_optimizer/sw_optimizer.py:26 | `SW_Fit[i] == fobj(Positions[i])` for every stored agent |
| Agents.HuntInPlace | sw_optimizer/sw_optimizer.py:58-77 | the in-place coordinate loop leaves row `i` equal to `HuntRow` of the population before the update, and every other row unchanged |
| Agents.MateInPlace | sw_optimizer/sw_optimizer.py:109-113 | `SW_m[j]` is the mating formula on the agent's old coordinate, and only coordinates whose crossover draw is below `Cr` take it |
| Agents.ClipRow | sw_optimizer/sw_optimizer.py:80 | only row `i` changes, each coordinate to its clipped value |
| Agents.WriteRow | sw_optimizer/sw_optimizer.py:93 | only row `i` changes, to the saved copy |
| Agents.Settle | sw_optimizer/sw_optimizer.py:80-93 | settling one agent on values: the agent's fitness drops exactly when the clipped candidate's fitness is strictly lower, and then the clipped candidate and its fitness replace the agent's; the best score drops exactly when that fitness is also below `Best_score`, and then `Best_SW` is the new position; otherwise the agent keeps its position and the best is unchanged; one evaluation is counted either way, and no other agent changes |
| Agents.HuntFold | sw_optimizer/sw_optimizer.py:47-93 | the Hunting pass on values, agent after agent in index order, each using the population and `Best_SW` its predecessors left: it spends exactly one evaluation per agent, raises no fitness and no best score, and an agent whose fitness did not drop keeps its position |
| Agents.MateFold | sw_optimizer/sw_optimizer.py:96-129 | the Mating pass on values, agent after agent, each using the population and `SW_Fit` its predecessors left, with the same accounting and monotonicity |
| Agents.SettleImproves | sw_optimizer/sw_optimizer.py:87-93 | accepting only strictly lower fitness and otherwise rolling back keeps, agent after agent, "no fitness increased, and an agent whose fitness did not drop kept its exact position" |
| Agents.PassFold | sw_optimizer/sw_optimizer.py:46-129 | a whole pass on values, by the coin's strategy: shapes are kept, exactly `n` evaluations are spent, the best score never rises, no fitness rises, and an agent whose fitness did not drop keeps its position |
| Agents.InitialSnap | sw_optimizer/sw_optimizer.py:24-32 | the state before the first iteration, on values: the initial population, its fitness evaluated once per agent, `neval = search_agents_no`, `Best_score = np.min(SW_Fit)`, and `Best_SW` the initial position at the first minimum, whose fitness is `Best_score` |
| Agents.Population.constructor | sw_optimizer/sw_optimizer.py:24-32 | the stored population is the initial one, its fitness is evaluated once per agent, `neval` and the per-name count are `search_agents_no`, and `Best_score` is `np.min(SW_Fit)`; `Best_SW` is the initial position at the first index holding that minimum (`np.argmin`); the state is `InitialSnap` of the initial population |
| Agents.Population.BestIsMinimum | sw_optimizer/sw_optimizer.py:89-91 | in every reachable state `Best_score` is the minimum of `SW_Fit` and the fitness of `Best_SW` |
| Agents.Population.Accept | sw_optimizer/sw_optimizer.py:87-91 | on a strict improvement the agent's fitness is replaced, and the best position and score follow a new minimum |
| Agents.Population.Rollback | sw_optimizer/sw_optimizer.py:92-93 | a rejected update restores the stored population exactly |
| Agents.Population.ClipAndEvaluate | sw_optimizer/sw_optimizer.py:80-82 | the clipped row is `np.clip` of the candidate, lies in the box, and its fitness is evaluated |
| Agents.Population.ClipEvaluateAccept | sw_optimizer/sw_optimizer.py:80-93 | clip, count one evaluation under the objective's name, then accept a strictly lower fitness or restore the exact old position and fitness; all invariants are kept |
| Agents.Population.HuntAgent | sw_optimizer/sw_optimizer.py:48-93 | one Hunting agent ends settled on the clipped `HuntRow` candidate: accepted only with a strictly lower fitness, otherwise unchanged |
| Agents.Population.MateAgent | sw_optimizer/sw_optimizer.py:97-129 | one Mating agent ends settled on the clipped crossover candidate: accepted only with a strictly lower fitness, otherwise unchanged |
| Agents.Population.HuntingPass | sw_optimizer/sw_optimizer.py:47-93 | the pass over the `n` active agents leaves exactly the state `HuntFold` computes from the state before it, so `neval` grew by `n`, no fitness or best score rose, and the agents from `n` on are untouched |
| Agents.Population.MatingPass | sw_optimizer/sw_optimizer.py:96-129 | the pass leaves exactly the state `MateFold` computes from the state before it |
| Agents.Population.Pass | sw_optimizer/sw_optimizer.py:46-129 | a coin below `TR = 0.5` runs the Hunting pass, any other the Mating pass, and the new state is that pass's fold |
| Engine.RecordStep | sw_optimizer/sw_optimizer.py:131-144 | the end-of-iteration updates carry the bookkeeping of `t` iterations to `t + 1`: counter, trace entry, non-increasing history, stall counter, the evaluation sum and the shrunk active size |
| Engine.RecordedAtStart | sw_optimizer/sw_optimizer.py:33-36 | before the first iteration the bookkeeping holds with `t = 0`: all agents active, one evaluation each, a zero trace, the initial best as the whole history, and a zero stall counter |
| Engine.RunFold | sw_optimizer/sw_optimizer.py:39-144 | the state after `k` iterations of a run driven by the random source: shapes are kept, `neval` has grown by the active sizes of those iterations, and the best score is never above the starting one |
| Engine.AfterIteration | sw_optimizer/sw_optimizer.py:39-144 | iteration `it` applies, to the state the earlier iterations left, the pass the coin of that iteration picks, over the shrunk active size, with that iteration's permutation `JK`, draws and schedule factors; the accounting then covers `it + 1` iterations |
| Engine.RunFoldStep | sw_optimizer/sw_optimizer.py:39-144 | one more iteration of the run is the pass of iteration `k` on the state after `k` iterations, with an active size in `[N_min, n0]` |
| Engine.RunFoldStepImproves | sw_optimizer/sw_optimizer.py:87-91 | no iteration raises the best score |
| Engine.BestTrace | sw_optimizer/sw_optimizer.py:132-133 | the trace of `k` iterations has `k` entries, and the last is the best score after `k` iterations |
| Engine.BestTraceEntry | sw_optimizer/sw_optimizer.py:132-133 | `Convergence_curve[i]` is the best score once iteration `i` is done, for every recorded `i` |
| Engine.OnRunStep | sw_optimizer/sw_optimizer.py:39-144 | when the state and the trace are those of the first `it` iterations, the pass of iteration `it` brings them to those of the first `it + 1`: the state is the next fold and the trace grows by the new best score |
| Engine.Optimizer.constructor | sw_optimizer/sw_optimizer.py:13-36 | the loop state before the first iteration: `t = 0`, `stall_count = 0`, `prev_best_score = Best_score`, and a zero trace of length `Tmax`; the population is the initial one with its bounds, objective and `Maths`, `Best_score` is `np.min(SW_Fit)`, `Best_SW` is the initial position at the first minimum (`np.argmin`), and the whole state is `InitialSnap` |
| Engine.Optimizer.Iterate | sw_optimizer/sw_optimizer.py:39-144 | one loop pass: the population ends in the fold of the strategy the coin picks, with the factors of iteration `t`; `t` grows by one, the trace entry `t - 1` is the best score, the history grows by that score, the stall rule holds, `prev_best_score` is the best score, and the active size is shrunk and never grows |
| Engine.Optimizer.EndOfIteration | sw_optimizer/sw_optimizer.py:131-144 | the bookkeeping of `t += 1`, the trace write, the stall counter, `prev_best_score` and the shrink, with the loop invariants kept |
| Engine.Optimizer.Advance | sw_optimizer/sw_optimizer.py:39-144 | iteration `t` of the loop with the permutation, coin and draws the random source gives for `t`: when the population and the trace stood where the first `t` iterations of the run leave them, they end where the first `t + 1` leave them |
| Engine.Optimizer.Run | sw_optimizer/sw_optimizer.py:39-144 | the loop ends with `t <= Tmax`, and it ends early only when the stall counter reached `max_stall`; no earlier check stopped it; the best score is no worse than the initial one; the final population, best position, best score, `neval` and trace are those of `RunFold` and `BestTrace` over the `t` iterations done, from the state before the loop |
| Engine.Swo | sw_optimizer/sw_optimizer.py:5-146 | a run returns the best position with its fitness inside the box, where a missing `ub` makes 512 the upper bound of every coordinate and a missing `lb` makes -512 the lower one, and `tol` and `max_stall` default to `1e-10` and 300; the best score is no worse than any initial agent; the trace prefixed by the initial best is non-increasing and ends in the best score, with at most `Tmax` entries; the evaluation count is `N0 + Σ` of the active sizes and equals the per-name count; the run stops early only at the stall limit; a population below `N_min` is refused; the returned best position, best score, evaluation count and trace are exactly those `RunFold` and `BestTrace` reach from `InitialSnap` of the initial population over the iterations done, driven by the random source |

## Left out

- Random numbers: `np.random` draws come from an input `RandomSource`, indexed by iteration and agent: `permutation(t, n)` and `strategy(t)` for iteration `t`, and `hunting(t)(i)` and `mating(t)(i)` for agent `i` in it. The order in which the original consumes one random stream is not modelled, and neither are the distributions (uniform, normal, `vc` in `[-k, k]`).
- `levy_flight` (`utils/levy_flight.py`) is not part of this model. Its per-coordinate steps `L[j]` are draws of the `RandomSource`.
- `initialize_positions` (`utils/initialization.py`) is not part of this model. The initial population is an input that must lie inside the box and have `search_agents_no` agents.
- `np.exp` and `np.cos`: they are an input `Maths` oracle. Only `exp > 0` is assumed, which makes `1 / (1 + exp(l))` defined.
- Floating point: all arithmetic is on exact reals. Rounding in `t / Tmax` and in the update formulas is not modelled. The shrink truncates the exact real value.
- NaN and infinite fitness values are not modelled, and neither are objective functions that raise: the objective is a total function.
- `fobj.__name__`: the objective's name is a separate string parameter.
- `Tmax < 0`: `np.zeros(Tmax)` raises on a negative size (sw_optimizer.py:15); `tmax` is a `nat`, so the model has no such run.
- `fobj=None`: `fobj.__name__` raises on it (sw_optimizer.py:17); the model always takes an objective, so it has no such run.
- The placeholder initial values `Best_SW = np.zeros(dim)` and `Best_score = np.inf` are overwritten before any use. They are not modelled.
- Bounds: a given `ub` or `lb` must be a vector of length `dim`. Scalar broadcasting and `dim = None` are not modelled.
- The test functions, `main.py` and `gui.py` are callers, not part of the engine.

## Findings

| source | as written | input that shows it | evidently intended | confidence | as-written member | corrected member |
|---|---|---|---|---|---|---|
| sw_optimizer/sw_optimizer.py:144 | `max(N_min, ...)` raises an active size below `N_min` to 20, more than the agents stored, so the next iteration indexes `Positions` and `SW_Fit` beyond their length | `search_agents_no = 10`, `Tmax = 100`: after the first iteration the active size is 20, and the second iteration reads past the stored agents; with fewer than 20 agents and `Tmax <= 1`, or `max_stall <= 0`, no second iteration runs and the source returns normally | the active size never exceeds the stored population: a run with fewer than `N_min` agents is refused before the loop starts, including the short runs that return normally as written | not executed | Schedule.ShrinkExceedsStorage | Engine.Swo |
