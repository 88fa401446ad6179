# OpenMC depletion-step dispatcher, modelled in Dafny

This project models the dispatcher in `openmc/deplete/pool.py` that performs one
depletion step for many materials. It checks the chain's fission-yield
distributions against the number of compositions: one distribution is broadcast
to every material, and otherwise there must be one per composition, or a
`ValueError` is raised. It then builds one depletion matrix per material, with
`chain.form_matrix` or a caller-supplied `matrix_func`. Finally it hands every
`(matrix, composition, dt)` triple to the integrator `func`, on either a
`multiprocessing.Pool` or the serial `PoolShim`, and returns the new
compositions in input order.

Files:

- `results.dfy` (module `Results`): `Option` and `Result`.
- `iterables.dfy` (module `Iterables`): the Python iterables the dispatcher is
  built from. A finite list is `Items`. `itertools.repeat(v)` is `Repeat(v)`, an
  iterable without end. `map`, `zip` and `itertools.starmap` stop at the end of
  their shortest input, as Python's do.
- `pool.dfy` (module `DepletePool`): `PoolShim` and `Pool` as the two variants
  of `PoolClass`, `DepletionDispatcher`, its `deplete`, and the module-level
  `deplete` wrapper.
- `properties.dfy` (module `DepletePoolProperties`): lemmas relating several calls.

Modelling choices:

- The chain, reaction rates, fission yields, matrices, compositions and the time
  step are type parameters. `chain.form_matrix`, `matrix_func` and `func` are
  function values. Only the fission-yield list, `form_matrix` and an opaque
  remainder (`data`, passed on to `matrix_func`) of the chain are modelled.
- `rates` is the sequence of per-material reaction-rate entries that iterating
  over `ReactionRates` yields.
- A multiprocessing pool's workers may finish in any order. That order is a
  parameter `order` (a permutation of the task indices). The pool stores each
  result in the slot of its task index (`Collect`). This is how the model states
  that results come back in input order whatever the scheduling.
- The dispatcher's construction flag is a `bool`. The module-level wrapper
  passes `Pool` itself (the `multiprocessing.Pool` factory), which Python treats
  as true, so it is modelled as `true`.
- `NewDispatcher` (`DepletionDispatcher.__init__`) and `Enter` (`__enter__`,
  which returns the pool object itself) are plain definitions. What they promise,
  that the choice of pool does not change results, is stated by
  `PoolShimIsDropIn` and `PoolChoiceDoesNotChangeResult`.
- Because `map` and `zip` truncate, `deplete` returns `min(len(x), len(rates))`
  results, not always `len(x)`.

## Model

| member | source | states |
|---|---|---|
| `Iterables.Shorter` | openmc/deplete/pool.py:92-98 | `map`/`zip` reach a position exactly when every input does; the result is endless only when all inputs are |
| `Iterables.Map2` | openmc/deplete/pool.py:92 | `map(f, a, b)` yields `f(a[i], b[i])` at exactly the positions both inputs reach; endless only for two `repeat`s |
| `Iterables.Map3` | openmc/deplete/pool.py:94 | `map(f, a, b, c)` yields `f(a[i], b[i], c[i])` at exactly the positions all three inputs reach |
| `Iterables.Zip3` | openmc/deplete/pool.py:98 | `zip(a, b, c)` yields the tuple `(a[i], b[i], c[i])` at exactly the positions all three inputs reach |
| `Iterables.StarMap` | openmc/deplete/pool.py:27-29 | `PoolShim.starmap` (that is, `itertools.starmap`) yields `f(*inputs[i])` at each position of its input, finite or endless |
| `Iterables.StarMapInOrder` | openmc/deplete/pool.py:27-29 | on a finite input, the serial starmap gives as many results as tuples, result `i` being `f` of tuple `i` |
| `Iterables.LengthFromPositions` | openmc/deplete/pool.py:99 | a finite iterable that yields exactly the positions below `n` has length `n` (the length of `list(...)`) |
| `Iterables.ToList` | openmc/deplete/pool.py:99 | `list(...)` of a finite iterable holds exactly the elements it yields, in order |
| `DepletePool.Collect` | openmc/deplete/pool.py:97-99 | as the pool's tasks complete in `order`, slot `k` holds task `k`'s result exactly when `k` has completed, and is unchanged otherwise |
| `DepletePool.PoolStarMap` | openmc/deplete/pool.py:97-99 | `Pool.starmap` returns one result per tuple, result `i` being `f` of tuple `i`, for every completion order of the workers |
| `DepletePool.StarMapOn` | openmc/deplete/pool.py:97-99 | `pool.starmap(func, inputs)` on either pool class yields `func(*inputs[i])` at exactly the input's positions; a multiprocessing pool needs a finite input |
| `DepletePool.ResolveYields` | openmc/deplete/pool.py:82-89 | accepted exactly when the yield count is 1 or the composition count; otherwise the error reports both counts; one distribution becomes `repeat`, which gives that distribution to material `i` for every `i`; otherwise material `i` gets distribution `i` |
| `DepletePool.Matrices` | openmc/deplete/pool.py:91-94 | matrix `i` exists exactly for the positions reached by both `rates` and the yields, and is `form_matrix(rates[i], y_i)`, or `matrix_func(chain, rates[i], y_i)` when one is given |
| `DepletePool.Inputs` | openmc/deplete/pool.py:98 | tuple `i` is `(matrix_i, x[i], dt)` and exists exactly while both `x` and the matrices last |
| `DepletePool.Deplete` | openmc/deplete/pool.py:52-101 | fails exactly when the yield count is neither 1 nor `len(x)`, with that error; otherwise returns `min(len(x), len(rates))` results, result `i` being `func(M_i, x[i], dt)` with `M_i` built from `rates[i]` and material `i`'s distribution |
| `DepletePool.ModuleDeplete` | openmc/deplete/pool.py:104-140 | as written: fails exactly on the yield-count mismatch, with the error reporting both counts; otherwise result `i` is `func(chain.form_matrix(rates[i], y_i), x[i], dt)`, whatever `matrix_func` is |
| `DepletePool.ModuleDepleteHonouringMatrixFunc` | openmc/deplete/pool.py:104-140 | corrected wrapper: fails exactly on the yield-count mismatch, with the error reporting both counts; otherwise `min(len(x), len(rates))` results, result `i` being `func(M_i, x[i], dt)` with `M_i` from the caller's `matrix_func` when one is given, else from `form_matrix` |
| `DepletePoolProperties.BroadcastSharesYield` | openmc/deplete/pool.py:83-84 | with one distribution, any number of compositions (zero included) is accepted and every material's matrix is built from that distribution |
| `DepletePoolProperties.PerMaterialPairing` | openmc/deplete/pool.py:85-94 | with one distribution per composition, material `i`'s matrix is built from `rates[i]` and distribution `i` |
| `DepletePoolProperties.MismatchFailsBeforeAnyWork` | openmc/deplete/pool.py:85-89 | on a yield-count mismatch the outcome is the error, the same for any other integrator, matrix builders, rates, time step, pool and completion order, so nothing is built or integrated |
| `DepletePoolProperties.SameTimeStepForEveryMaterial` | openmc/deplete/pool.py:98 | every tuple handed to the pool carries the same `dt` |
| `DepletePoolProperties.MatrixFuncReplacesFormMatrix` | openmc/deplete/pool.py:91-94 | with a `matrix_func`, the integrator receives `matrix_func(chain, rates[i], y_i)` for material `i` |
| `DepletePoolProperties.PoolShimIsDropIn` | openmc/deplete/pool.py:9-29 | on any finite input, `PoolShim.starmap` and `Pool.starmap` give the same results, whatever order the pool's workers finish in |
| `DepletePoolProperties.PoolChoiceDoesNotChangeResult` | openmc/deplete/pool.py:49-50 | whichever pool class the constructor's flag selects, a serial and a multiprocessing dispatcher return the same outcome for the same inputs |
| `DepletePoolProperties.CompletionOrderDoesNotChangeResult` | openmc/deplete/pool.py:97-99 | a multiprocessing dispatcher's outcome does not depend on the order in which its workers finish |
| `DepletePoolProperties.SameOutcomeFromSpecification` | openmc/deplete/pool.py:52-101 | two `deplete` calls on the same inputs agree, whatever pool and completion order each uses |
| `DepletePoolProperties.ModuleDepleteIgnoresMatrixFunc` | openmc/deplete/pool.py:139-140 | the module-level `deplete` equals a multiprocessing dispatcher's `deplete` with `matrix_func=None`, for any `matrix_func` |
| `DepletePoolProperties.ModuleDepleteDropsMatrixFunc` | openmc/deplete/pool.py:139-140 | a concrete input on which the wrapper as written returns `[0]` where honouring `matrix_func` returns `[1]` |
| `DepletePoolProperties.HonouringWrapperMatchesDispatcher` | openmc/deplete/pool.py:104-140 | the corrected wrapper equals a dispatcher's `deplete` called with the caller's `matrix_func` |
| `DepletePoolProperties.DoublingScenario` | openmc/deplete/pool.py:52-101 | three materials, a shared distribution, `dt = 10.0` and a doubling integrator give the doubled compositions in order on both pool classes |

## Left out

- `PoolShim.__exit__` and `Pool.__exit__`: the shim's does nothing and the pool's terminates its worker processes. Neither suppresses an exception. The model has no state or exceptions, so there is nothing for them to change.
- `multiprocessing.Pool` itself: process creation, pickling, chunking, pool size and termination. Only its contract is kept: every tuple is computed independently and results are stored by task index.
- Exceptions raised inside `func`, `form_matrix` or `matrix_func`, and their propagation, are not modelled. These functions are total function values here. The only modelled error is the fission-yield count `ValueError`. Its message text is reduced to the two counts it reports.
- Lazy evaluation order: the model represents each iterator by the elements it yields. In the broadcast case with more rate entries than compositions, `zip` draws one extra matrix from `map` before noticing that `x` is exhausted. That call's result is discarded, so outcomes are unaffected, but the model does not record it.
- The internals of `Chain.form_matrix`, the integrator, `ReactionRates` and the fission-yield dictionaries are numeric (floating point, numpy/scipy) and are not part of this model.
- `tests/conftest.py`: pytest option wiring, temporary-directory and environment fixtures, and a subprocess probe for `njoy`. Test-harness I/O with no dispatch logic.

## Findings

| source | as written | input that shows it | evidently intended | confidence | as-written member | corrected member |
|---|---|---|---|---|---|---|
| openmc/deplete/pool.py:139-140 | the module-level `deplete` always passes `matrix_func=None` to the dispatcher, so a caller's `matrix_func` is ignored | one material, one fission-yield distribution, `form_matrix` giving 0, `matrix_func` giving 1, `func` returning the matrix: the result is `[0]` | the argument is documented at lines 125-130, so it should be passed on, giving `[1]` | medium, not executed | `DepletePoolProperties.ModuleDepleteDropsMatrixFunc` | `DepletePool.ModuleDepleteHonouringMatrixFunc` |
