/** Properties of the depletion-step dispatcher that relate several calls:
    broadcast and positional pairing of fission yields, failing before any work,
    the pool choice and the completion order not changing the result, and the
    module-level wrapper's treatment of `matrix_func`. */
module DepletePoolProperties {
  import opened Results
  import opened Iterables
  import opened DepletePool

  /** A chain with a single fission-yield distribution is accepted for any number
      of compositions, zero included, and every material's matrix is built from
      that one distribution. */
  lemma BroadcastSharesYield<C, R, Y, M>(chain: Chain<C, R, Y, M>, rates: seq<R>, compositions: nat,
                                         matrixFunc: Option<(Chain<C, R, Y, M>, R, Y) -> M>)
    requires |chain.fissionYields| == 1
    ensures ResolveYields(chain.fissionYields, compositions).Success?
    ensures forall i :: 0 <= i < |rates| ==>
      var matrices := Matrices(chain, rates, ResolveYields(chain.fissionYields, compositions).value, matrixFunc);
      matrices.Has(i) && matrices.At(i) == BuildMatrix(chain, matrixFunc, rates[i], chain.fissionYields[0])
  {
  }

  /** With one distribution per composition, material `i` pairs `rates[i]` with
      distribution `i`. */
  lemma PerMaterialPairing<C, R, Y, M>(chain: Chain<C, R, Y, M>, rates: seq<R>, compositions: nat,
                                       matrixFunc: Option<(Chain<C, R, Y, M>, R, Y) -> M>)
    requires |chain.fissionYields| == compositions != 1
    ensures ResolveYields(chain.fissionYields, compositions).Success?
    ensures forall i :: 0 <= i < Min(|rates|, compositions) ==>
      var matrices := Matrices(chain, rates, ResolveYields(chain.fissionYields, compositions).value, matrixFunc);
      matrices.Has(i) && matrices.At(i) == BuildMatrix(chain, matrixFunc, rates[i], chain.fissionYields[i])
  {
  }

  /** A yield count that is neither 1 nor the number of compositions fails with the
      error, and the outcome depends on nothing that building or integrating would
      touch: other integrators, matrix builders, rates, time steps, pools and
      completion orders give the same failure, so no work is done. */
  lemma MismatchFailsBeforeAnyWork<C, R, Y, M, V, T>(
    d: DepletionDispatcher, func: (M, V, T) -> V, chain: Chain<C, R, Y, M>, x: seq<V>, rates: seq<R>, dt: T,
    matrixFunc: Option<(Chain<C, R, Y, M>, R, Y) -> M>, order: seq<nat>,
    d': DepletionDispatcher, func': (M, V, T) -> V, formMatrix': (R, Y) -> M, rates': seq<R>, dt': T,
    matrixFunc': Option<(Chain<C, R, Y, M>, R, Y) -> M>, order': seq<nat>)
    requires |chain.fissionYields| != 1 && |chain.fissionYields| != |x|
    requires d.poolClass.MultiprocessingPool? ==> IsCompletionOrder(order, Min(|x|, |rates|))
    requires d'.poolClass.MultiprocessingPool? ==> IsCompletionOrder(order', Min(|x|, |rates'|))
    ensures Deplete(d, func, chain, x, rates, dt, matrixFunc, order)
         == Failure(YieldCountMismatch(|chain.fissionYields|, |x|))
    ensures Deplete(d, func, chain, x, rates, dt, matrixFunc, order)
         == Deplete(d', func', chain.(formMatrix := formMatrix'), x, rates', dt', matrixFunc', order')
  {
  }

  /** Every argument tuple handed to the pool carries the same time step. */
  lemma SameTimeStepForEveryMaterial<M, V, T>(matrices: Stream<M>, x: seq<V>, dt: T)
    ensures forall i: nat :: Inputs(matrices, x, dt).Has(i) ==> Inputs(matrices, x, dt).At(i).2 == dt
  {
  }

  /** A supplied `matrix_func` replaces `chain.form_matrix`: each matrix the
      integrator receives is `matrix_func(chain, rates[i], yield_i)`. */
  lemma MatrixFuncReplacesFormMatrix<C, R, Y, M, V, T>(
    d: DepletionDispatcher, func: (M, V, T) -> V, chain: Chain<C, R, Y, M>, x: seq<V>, rates: seq<R>, dt: T,
    build: (Chain<C, R, Y, M>, R, Y) -> M, order: seq<nat>)
    requires d.poolClass.MultiprocessingPool? ==> IsCompletionOrder(order, Min(|x|, |rates|))
    ensures var r := Deplete(d, func, chain, x, rates, dt, Some(build), order);
      r.Success? ==> forall i :: 0 <= i < |r.value| ==>
        r.value[i] == func(build(chain, rates[i], YieldFor(chain.fissionYields, i)), x[i], dt)
  {
  }

  /** `PoolShim` is a drop-in replacement for `Pool`: on any finite list of argument
      tuples, and whatever order the pool's workers finish in, both give the same results. */
  lemma PoolShimIsDropIn<A, B, C, R>(f: (A, B, C) -> R, inputs: seq<(A, B, C)>, order: seq<nat>, order': seq<nat>)
    requires IsCompletionOrder(order, |inputs|)
    ensures StarMapOn(PoolShim, f, Items(inputs), order') == StarMapOn(MultiprocessingPool, f, Items(inputs), order)
  {
  }

  /** The pool class chosen at construction does not change what `deplete` returns:
      a serial dispatcher and a multiprocessing one, finishing in any order, agree. */
  lemma PoolChoiceDoesNotChangeResult<C, R, Y, M, V, T>(
    func: (M, V, T) -> V, chain: Chain<C, R, Y, M>, x: seq<V>, rates: seq<R>, dt: T,
    matrixFunc: Option<(Chain<C, R, Y, M>, R, Y) -> M>, order: seq<nat>, order': seq<nat>)
    requires IsCompletionOrder(order, Min(|x|, |rates|))
    ensures Deplete(NewDispatcher(false), func, chain, x, rates, dt, matrixFunc, order')
         == Deplete(NewDispatcher(true), func, chain, x, rates, dt, matrixFunc, order)
  {
    SameOutcomeFromSpecification(NewDispatcher(false), NewDispatcher(true), func, chain, x, rates, dt, matrixFunc, order', order);
  }

  /** The results of a multiprocessing dispatcher do not depend on the order in
      which its workers finish. */
  lemma CompletionOrderDoesNotChangeResult<C, R, Y, M, V, T>(
    func: (M, V, T) -> V, chain: Chain<C, R, Y, M>, x: seq<V>, rates: seq<R>, dt: T,
    matrixFunc: Option<(Chain<C, R, Y, M>, R, Y) -> M>, order: seq<nat>, order': seq<nat>)
    requires IsCompletionOrder(order, Min(|x|, |rates|))
    requires IsCompletionOrder(order', Min(|x|, |rates|))
    ensures Deplete(NewDispatcher(true), func, chain, x, rates, dt, matrixFunc, order)
         == Deplete(NewDispatcher(true), func, chain, x, rates, dt, matrixFunc, order')
  {
    SameOutcomeFromSpecification(NewDispatcher(true), NewDispatcher(true), func, chain, x, rates, dt, matrixFunc, order, order');
  }

  /** Two `deplete` calls on the same inputs agree, because `Deplete`'s contract
      fixes its whole outcome. */
  lemma SameOutcomeFromSpecification<C, R, Y, M, V, T>(
    d: DepletionDispatcher, d': DepletionDispatcher,
    func: (M, V, T) -> V, chain: Chain<C, R, Y, M>, x: seq<V>, rates: seq<R>, dt: T,
    matrixFunc: Option<(Chain<C, R, Y, M>, R, Y) -> M>, order: seq<nat>, order': seq<nat>)
    requires d.poolClass.MultiprocessingPool? ==> IsCompletionOrder(order, Min(|x|, |rates|))
    requires d'.poolClass.MultiprocessingPool? ==> IsCompletionOrder(order', Min(|x|, |rates|))
    ensures Deplete(d, func, chain, x, rates, dt, matrixFunc, order)
         == Deplete(d', func, chain, x, rates, dt, matrixFunc, order')
  {
    var r := Deplete(d, func, chain, x, rates, dt, matrixFunc, order);
    var r' := Deplete(d', func, chain, x, rates, dt, matrixFunc, order');
    if r.Success? {
      assert r.value == r'.value;
    }
  }

  /** The module-level `deplete` is a multiprocessing dispatcher's `deplete` with
      `matrix_func=None`, whatever `matrix_func` the caller passes. This holds by
      the definition of `ModuleDeplete`; its contract is what states, without
      unfolding, that every matrix comes from `chain.form_matrix`. */
  lemma ModuleDepleteIgnoresMatrixFunc<C, R, Y, M, V, T>(
    func: (M, V, T) -> V, chain: Chain<C, R, Y, M>, x: seq<V>, rates: seq<R>, dt: T,
    matrixFunc: Option<(Chain<C, R, Y, M>, R, Y) -> M>, order: seq<nat>)
    requires IsCompletionOrder(order, Min(|x|, |rates|))
    ensures ModuleDeplete(func, chain, x, rates, dt, matrixFunc, order)
         == Deplete(NewDispatcher(true), func, chain, x, rates, dt, None, order)
  {
  }

  /** One material, a chain whose `form_matrix` gives 0, a `matrix_func` that gives 1
      and an integrator that returns the matrix: the module-level `deplete` returns
      `[0]` although the caller asked for `matrix_func`, which gives `[1]`. */
  lemma ModuleDepleteDropsMatrixFunc()
    ensures var chain := Chain(0, [0], (rate: int, fy: int) => 0);
      var build := (c: Chain<int, int, int, int>, rate: int, fy: int) => 1;
      var func := (m: int, v: int, t: int) => m;
      && ModuleDeplete(func, chain, [0], [0], 0, Some(build), [0]) == Success([0])
      && ModuleDepleteHonouringMatrixFunc(func, chain, [0], [0], 0, Some(build), [0]) == Success([1])
  {
    var chain := Chain(0, [0], (rate: int, fy: int) => 0);
    var build := (c: Chain<int, int, int, int>, rate: int, fy: int) => 1;
    var func := (m: int, v: int, t: int) => m;
    var written := ModuleDeplete(func, chain, [0], [0], 0, Some(build), [0]);
    var intended := ModuleDepleteHonouringMatrixFunc(func, chain, [0], [0], 0, Some(build), [0]);
    assert written.value == [0];
    assert intended.value == [1];
  }

  /** The corrected wrapper gives the same result as a multiprocessing dispatcher
      called with the caller's `matrix_func`. */
  lemma HonouringWrapperMatchesDispatcher<C, R, Y, M, V, T>(
    func: (M, V, T) -> V, chain: Chain<C, R, Y, M>, x: seq<V>, rates: seq<R>, dt: T,
    matrixFunc: Option<(Chain<C, R, Y, M>, R, Y) -> M>, order: seq<nat>, order': seq<nat>)
    requires IsCompletionOrder(order, Min(|x|, |rates|))
    ensures ModuleDepleteHonouringMatrixFunc(func, chain, x, rates, dt, matrixFunc, order)
         == Deplete(NewDispatcher(false), func, chain, x, rates, dt, matrixFunc, order')
  {
    PoolChoiceDoesNotChangeResult(func, chain, x, rates, dt, matrixFunc, order, order');
  }

  /** Three materials sharing one fission-yield distribution, `dt = 10.0`, a matrix
      builder giving a placeholder and an integrator that doubles the composition:
      both pool classes return the doubled compositions in input order. */
  lemma DoublingScenario(order: seq<nat>)
    requires IsCompletionOrder(order, 3)
    ensures var chain := Chain(0, [0], (rate: int, fy: int) => 0);
      var func := (m: int, v: int, t: real) => 2 * v;
      && Deplete(NewDispatcher(true), func, chain, [5, 6, 7], [0, 0, 0], 10.0, None, order) == Success([10, 12, 14])
      && Deplete(NewDispatcher(false), func, chain, [5, 6, 7], [0, 0, 0], 10.0, None, []) == Success([10, 12, 14])
  {
    var chain := Chain(0, [0], (rate: int, fy: int) => 0);
    var func := (m: int, v: int, t: real) => 2 * v;
    var parallel := Deplete(NewDispatcher(true), func, chain, [5, 6, 7], [0, 0, 0], 10.0, None, order);
    var serial := Deplete(NewDispatcher(false), func, chain, [5, 6, 7], [0, 0, 0], 10.0, None, []);
    assert parallel.value == [10, 12, 14];
    assert serial.value == [10, 12, 14];
  }
}
