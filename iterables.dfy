/** The Python iterables the dispatcher is built from: lists, `itertools.repeat`,
    and the truncating combinators `map`, `zip` and `itertools.starmap`.
    A lazy iterator is represented by the elements it would yield. */
module Iterables {

  /** How far an iterable reaches: a fixed number of elements, or without end. */
  datatype Extent = Unbounded | Bounded(count: nat) {

    /** The iterable yields an element at position `i`. */
    predicate Reaches(i: nat) {
      Unbounded? || i < count
    }
  }

  /** Where `map` and `zip` over two iterables stop: at the end of the shorter one. */
  function Shorter(a: Extent, b: Extent): (r: Extent)
    ensures r.Unbounded? <==> a.Unbounded? && b.Unbounded?
    ensures forall i: nat :: r.Reaches(i) <==> a.Reaches(i) && b.Reaches(i)
  {
    match a
    case Unbounded => b
    case Bounded(m) =>
      match b
      case Unbounded => a
      case Bounded(n) => Bounded(if m <= n then m else n)
  }

  /** An iterable: a finite list of `items`, or `itertools.repeat(value)`,
      which yields `value` over and over without end. */
  datatype Stream<T> = Items(items: seq<T>) | Repeat(value: T) {

    function Extent(): Extent {
      if Repeat? then Unbounded else Bounded(|items|)
    }

    /** The iterable yields an element at position `i`. */
    predicate Has(i: nat) {
      Extent().Reaches(i)
    }

    /** The element yielded at position `i`. */
    function At(i: nat): T
      requires Has(i)
    {
      if Repeat? then value else items[i]
    }
  }

  /** A finite iterable yields exactly its first `n` positions when `Has` says so. */
  lemma LengthFromPositions<T>(s: Stream<T>, n: nat)
    requires s.Items?
    requires forall i: nat :: s.Has(i) <==> i < n
    ensures |s.items| == n
  {
    assert !s.Has(|s.items|);
    assert n < |s.items| ==> s.Has(n);
  }

  /** `map(f, a, b)`: applies `f` position by position and stops with the shorter input. */
  function Map2<A, B, C>(f: (A, B) -> C, a: Stream<A>, b: Stream<B>): (r: Stream<C>)
    ensures r.Repeat? <==> a.Repeat? && b.Repeat?
    ensures forall i: nat :: r.Has(i) <==> a.Has(i) && b.Has(i)
    ensures forall i: nat :: r.Has(i) ==> a.Has(i) && b.Has(i) && r.At(i) == f(a.At(i), b.At(i))
  {
    match Shorter(a.Extent(), b.Extent())
    case Unbounded => Repeat(f(a.value, b.value))
    case Bounded(n) => Items(seq(n, i requires 0 <= i < n => f(a.At(i), b.At(i))))
  }

  /** `map(f, a, b, c)`: applies `f` position by position and stops with the shortest input. */
  function Map3<A, B, C, D>(f: (A, B, C) -> D, a: Stream<A>, b: Stream<B>, c: Stream<C>): (r: Stream<D>)
    ensures r.Repeat? <==> a.Repeat? && b.Repeat? && c.Repeat?
    ensures forall i: nat :: r.Has(i) <==> a.Has(i) && b.Has(i) && c.Has(i)
    ensures forall i: nat :: r.Has(i) ==>
      a.Has(i) && b.Has(i) && c.Has(i) && r.At(i) == f(a.At(i), b.At(i), c.At(i))
  {
    match Shorter(Shorter(a.Extent(), b.Extent()), c.Extent())
    case Unbounded => Repeat(f(a.value, b.value, c.value))
    case Bounded(n) => Items(seq(n, i requires 0 <= i < n => f(a.At(i), b.At(i), c.At(i))))
  }

  /** `zip(a, b, c)`: the tuples of same-position elements, up to the shortest input. */
  function Zip3<A, B, C>(a: Stream<A>, b: Stream<B>, c: Stream<C>): (r: Stream<(A, B, C)>)
    ensures r.Repeat? <==> a.Repeat? && b.Repeat? && c.Repeat?
    ensures forall i: nat :: r.Has(i) <==> a.Has(i) && b.Has(i) && c.Has(i)
    ensures forall i: nat :: r.Has(i) ==>
      a.Has(i) && b.Has(i) && c.Has(i) && r.At(i) == (a.At(i), b.At(i), c.At(i))
  {
    match Shorter(Shorter(a.Extent(), b.Extent()), c.Extent())
    case Unbounded => Repeat((a.value, b.value, c.value))
    case Bounded(n) => Items(seq(n, i requires 0 <= i < n => (a.At(i), b.At(i), c.At(i))))
  }

  /** `itertools.starmap(f, inputs)`: `f` applied to each argument tuple, one after the other. */
  function StarMap<A, B, C, R>(f: (A, B, C) -> R, inputs: Stream<(A, B, C)>): (r: Stream<R>)
    ensures r.Repeat? <==> inputs.Repeat?
    ensures forall i: nat :: r.Has(i) <==> inputs.Has(i)
    ensures forall i: nat :: r.Has(i) ==>
      inputs.Has(i) && r.At(i) == f(inputs.At(i).0, inputs.At(i).1, inputs.At(i).2)
  {
    match inputs
    case Repeat(t) => Repeat(f(t.0, t.1, t.2))
    case Items(ts) => Items(StarMapInOrder(f, ts))
  }

  /** The finite case of `itertools.starmap`: the first tuple's result, then the rest's. */
  function StarMapInOrder<A, B, C, R>(f: (A, B, C) -> R, inputs: seq<(A, B, C)>): (r: seq<R>)
    ensures |r| == |inputs|
    ensures forall i :: 0 <= i < |inputs| ==> r[i] == f(inputs[i].0, inputs[i].1, inputs[i].2)
  {
    if |inputs| == 0 then []
    else [f(inputs[0].0, inputs[0].1, inputs[0].2)] + StarMapInOrder(f, inputs[1..])
  }

  /** `list(s)` of a finite iterable: the elements it yields, in order. */
  function ToList<T>(s: Stream<T>): (r: seq<T>)
    requires s.Items?
    ensures forall i: nat :: s.Has(i) <==> i < |r|
    ensures forall i :: 0 <= i < |r| ==> r[i] == s.At(i)
  {
    s.items
  }
}
