/** The depletion-step dispatcher of `openmc/deplete/pool.py`: resolve the chain's
    fission yields against the number of compositions, build one depletion matrix
    per material, and integrate every `(matrix, composition, dt)` triple on a
    multiprocessing pool or on the serial `PoolShim`, collecting the new
    compositions in input order.

    The chain, reaction rates, fission yields, matrices, compositions and the
    time step are type parameters; `chain.form_matrix`, `matrix_func` and the
    integrator `func` are function values. */
module DepletePool {
  import opened Results
  import opened Iterables

  /** The executor class a dispatcher holds: `multiprocessing.Pool` or `PoolShim`. */
  datatype PoolClass = MultiprocessingPool | PoolShim

  /** The object `with pool_class() as pool` binds. `PoolShim.__enter__` returns the
      shim itself, and `Pool.__enter__` likewise returns the pool. */
  function Enter(poolClass: PoolClass): PoolClass
  {
    poolClass
  }

  /** `order` is an order in which the workers of a pool can finish `n` tasks:
      n completions, each naming a task below n, and every task among them. */
  predicate IsCompletionOrder(order: seq<nat>, n: nat) {
    && |order| == n
    && (forall j :: 0 <= j < |order| ==> order[j] < n)
    && (forall k :: 0 <= k < n ==> k in order)
  }

  /** A pool's result collector: as each task in `order` completes, its result is
      stored in the slot of that task's index, whatever the completion order. */
  function Collect<A, B, C, R>(f: (A, B, C) -> R, inputs: seq<(A, B, C)>, order: seq<nat>,
                               slots: seq<Option<R>>): (r: seq<Option<R>>)
    requires |slots| == |inputs|
    requires forall j :: 0 <= j < |order| ==> order[j] < |inputs|
    ensures |r| == |slots|
    ensures forall k :: 0 <= k < |r| ==>
      r[k] == if k in order then Some(f(inputs[k].0, inputs[k].1, inputs[k].2)) else slots[k]
  {
    if |order| == 0 then slots
    else
      var k := order[0];
      assert forall m :: m in order <==> m == k || m in order[1..];
      Collect(f, inputs, order[1..], slots[k := Some(f(inputs[k].0, inputs[k].1, inputs[k].2))])
  }

  /** `Pool.starmap(func, inputs)`: every tuple handed to a worker, the results
      gathered as the workers finish in `order`, and returned as a list in input order. */
  function PoolStarMap<A, B, C, R>(f: (A, B, C) -> R, inputs: seq<(A, B, C)>, order: seq<nat>): (r: seq<R>)
    requires IsCompletionOrder(order, |inputs|)
    ensures |r| == |inputs|
    ensures forall i :: 0 <= i < |inputs| ==> r[i] == f(inputs[i].0, inputs[i].1, inputs[i].2)
  {
    var slots := Collect(f, inputs, order, seq(|inputs|, _ => None));
    seq(|inputs|, i requires 0 <= i < |inputs| => slots[i].value)
  }

  /** `pool.starmap(func, inputs)` on the entered pool. The shim delegates to
      `itertools.starmap`; a multiprocessing pool first takes the inputs as a list,
      so they must be finite, and its workers finish in some `order`. */
  function StarMapOn<A, B, C, R>(pool: PoolClass, f: (A, B, C) -> R, inputs: Stream<(A, B, C)>,
                                 order: seq<nat>): (r: Stream<R>)
    requires pool.MultiprocessingPool? ==> inputs.Items? && IsCompletionOrder(order, |inputs.items|)
    ensures r.Items? <==> inputs.Items?
    ensures forall i: nat :: r.Has(i) <==> inputs.Has(i)
    ensures forall i: nat :: r.Has(i) ==>
      inputs.Has(i) && r.At(i) == f(inputs.At(i).0, inputs.At(i).1, inputs.At(i).2)
  {
    match pool
    case PoolShim => StarMap(f, inputs)
    case MultiprocessingPool => Items(PoolStarMap(f, inputs.items, order))
  }

  /** A `DepletionDispatcher`: its only state is the pool class chosen at construction. */
  datatype DepletionDispatcher = DepletionDispatcher(poolClass: PoolClass)

  /** `DepletionDispatcher(use_multiprocessing)`: a truthy flag selects `Pool`,
      a falsy one `PoolShim`. */
  function NewDispatcher(useMultiprocessing: bool): DepletionDispatcher
  {
    DepletionDispatcher(if useMultiprocessing then MultiprocessingPool else PoolShim)
  }

  /** The part of a depletion chain the dispatcher uses: its fission-yield
      distributions and its default matrix builder `form_matrix(rates, fission_yield)`.
      `data` stands for the rest of the chain, which a custom `matrix_func` may read. */
  datatype Chain<C, !R, !Y, M> = Chain(data: C, fissionYields: seq<Y>, formMatrix: (R, Y) -> M)

  /** The `ValueError` raised when the number of fission-yield distributions is
      neither 1 nor the number of compositions; it reports both numbers. */
  datatype DepletionError = YieldCountMismatch(yieldCount: nat, compositionCount: nat)

  function Min(a: nat, b: nat): nat {
    if a <= b then a else b
  }

  /** The fission-yield distribution material `i` is meant to use: the single shared
      one, or the `i`-th. */
  function YieldFor<Y>(distributions: seq<Y>, i: nat): Y
    requires |distributions| == 1 || i < |distributions|
  {
    if |distributions| == 1 then distributions[0] else distributions[i]
  }

  /** The matrix material `i` is meant to get: from `matrix_func` when one is given,
      otherwise from the chain's `form_matrix`. */
  function BuildMatrix<C, R, Y, M>(chain: Chain<C, R, Y, M>, matrixFunc: Option<(Chain<C, R, Y, M>, R, Y) -> M>,
                                   rate: R, fissionYield: Y): M
  {
    match matrixFunc
    case None => chain.formMatrix(rate, fissionYield)
    case Some(build) => build(chain, rate, fissionYield)
  }

  /** The fission-yield check of `deplete`: one distribution is repeated for every
      material; otherwise there must be one per composition. */
  function ResolveYields<Y>(distributions: seq<Y>, compositions: nat): (r: Result<Stream<Y>, DepletionError>)
    ensures r.Success? <==> |distributions| == 1 || |distributions| == compositions
    ensures r.Failure? ==> r.error == YieldCountMismatch(|distributions|, compositions)
    ensures r.Success? ==> (r.value.Repeat? <==> |distributions| == 1)
    ensures r.Success? ==> forall i: nat :: r.value.Has(i) <==> |distributions| == 1 || i < compositions
    ensures r.Success? ==> forall i: nat :: r.value.Has(i) ==> r.value.At(i) == YieldFor(distributions, i)
  {
    if |distributions| == 1 then Success(Repeat(distributions[0]))
    else if |distributions| != compositions then Failure(YieldCountMismatch(|distributions|, compositions))
    else Success(Items(distributions))
  }

  /** The lazily built matrices of `deplete`: `map(chain.form_matrix, rates, fission_yields)`,
      or `map(matrix_func, repeat(chain), rates, fission_yields)` when a `matrix_func` is given. */
  function Matrices<C, R, Y, M>(chain: Chain<C, R, Y, M>, rates: seq<R>, distributions: Stream<Y>,
                                matrixFunc: Option<(Chain<C, R, Y, M>, R, Y) -> M>): (r: Stream<M>)
    ensures r.Items?
    ensures forall i: nat :: r.Has(i) <==> i < |rates| && distributions.Has(i)
    ensures forall i: nat :: r.Has(i) ==>
      i < |rates| && distributions.Has(i) && r.At(i) == BuildMatrix(chain, matrixFunc, rates[i], distributions.At(i))
  {
    match matrixFunc
    case None => Map2(chain.formMatrix, Items(rates), distributions)
    case Some(build) => Map3(build, Repeat(chain), Items(rates), distributions)
  }

  /** `zip(matrices, x, repeat(dt))`: the argument tuples handed to the pool. */
  function Inputs<M, V, T>(matrices: Stream<M>, x: seq<V>, dt: T): (r: Stream<(M, V, T)>)
    ensures r.Items?
    ensures forall i: nat :: r.Has(i) <==> i < |x| && matrices.Has(i)
    ensures forall i: nat :: r.Has(i) ==> i < |x| && matrices.Has(i) && r.At(i) == (matrices.At(i), x[i], dt)
  {
    Zip3(matrices, Items(x), Repeat(dt))
  }

  /** `DepletionDispatcher.deplete(func, chain, x, rates, dt, matrix_func)`.
      `order` is the order in which a multiprocessing pool's workers finish. */
  function Deplete<C, R, Y, M, V, T>(d: DepletionDispatcher, func: (M, V, T) -> V, chain: Chain<C, R, Y, M>,
                                     x: seq<V>, rates: seq<R>, dt: T,
                                     matrixFunc: Option<(Chain<C, R, Y, M>, R, Y) -> M>,
                                     order: seq<nat>): (r: Result<seq<V>, DepletionError>)
    requires d.poolClass.MultiprocessingPool? ==> IsCompletionOrder(order, Min(|x|, |rates|))
    ensures r.Failure? <==> |chain.fissionYields| != 1 && |chain.fissionYields| != |x|
    ensures r.Failure? ==> r.error == YieldCountMismatch(|chain.fissionYields|, |x|)
    ensures r.Success? ==> |r.value| == Min(|x|, |rates|)
    ensures r.Success? ==> forall i :: 0 <= i < |r.value| ==>
      r.value[i] == func(BuildMatrix(chain, matrixFunc, rates[i], YieldFor(chain.fissionYields, i)), x[i], dt)
  {
    match ResolveYields(chain.fissionYields, |x|)
    case Failure(e) => Failure(e)
    case Success(distributions) =>
      var matrices := Matrices(chain, rates, distributions, matrixFunc);
      var inputs := Inputs(matrices, x, dt);
      LengthFromPositions(inputs, Min(|x|, |rates|));
      var pool := Enter(d.poolClass);
      var results := StarMapOn(pool, func, inputs, order);
      LengthFromPositions(results, Min(|x|, |rates|));
      Success(ToList(results))
  }

  /** The module-level `deplete(func, chain, x, rates, dt, matrix_func)` as written:
      it builds a multiprocessing dispatcher and passes `matrix_func=None`, so every
      matrix comes from `chain.form_matrix`, whatever `matrixFunc` is. */
  function ModuleDeplete<C, R, Y, M, V, T>(func: (M, V, T) -> V, chain: Chain<C, R, Y, M>,
                                           x: seq<V>, rates: seq<R>, dt: T,
                                           matrixFunc: Option<(Chain<C, R, Y, M>, R, Y) -> M>,
                                           order: seq<nat>): (r: Result<seq<V>, DepletionError>)
    requires IsCompletionOrder(order, Min(|x|, |rates|))
    ensures r.Failure? <==> |chain.fissionYields| != 1 && |chain.fissionYields| != |x|
    ensures r.Failure? ==> r.error == YieldCountMismatch(|chain.fissionYields|, |x|)
    ensures r.Success? ==> |r.value| == Min(|x|, |rates|)
    ensures r.Success? ==> forall i :: 0 <= i < |r.value| ==>
      r.value[i] == func(chain.formMatrix(rates[i], YieldFor(chain.fissionYields, i)), x[i], dt)
  {
    Deplete(NewDispatcher(true), func, chain, x, rates, dt, None, order)
  }

  /** The module-level `deplete` as its documentation describes it: the given
      `matrix_func` is passed on to the dispatcher. */
  function ModuleDepleteHonouringMatrixFunc<C, R, Y, M, V, T>(func: (M, V, T) -> V, chain: Chain<C, R, Y, M>,
                                                              x: seq<V>, rates: seq<R>, dt: T,
                                                              matrixFunc: Option<(Chain<C, R, Y, M>, R, Y) -> M>,
                                                              order: seq<nat>): (r: Result<seq<V>, DepletionError>)
    requires IsCompletionOrder(order, Min(|x|, |rates|))
    ensures r.Failure? <==> |chain.fissionYields| != 1 && |chain.fissionYields| != |x|
    ensures r.Failure? ==> r.error == YieldCountMismatch(|chain.fissionYields|, |x|)
    ensures r.Success? ==> |r.value| == Min(|x|, |rates|)
    ensures r.Success? ==> forall i :: 0 <= i < |r.value| ==>
      r.value[i] == func(BuildMatrix(chain, matrixFunc, rates[i], YieldFor(chain.fissionYields, i)), x[i], dt)
  {
    Deplete(NewDispatcher(true), func, chain, x, rates, dt, matrixFunc, order)
  }
}
