/** The library's extension of PromiseKit's `Promise`.

    A promise is modelled by how it settles together with the optional
    "loading state" the extension attaches to it (an associated object in
    the source, a plain field here). The combinators below are pure: each
    returns a new record, and the rules for which of them carry the loading
    state over and which drop it are part of their contracts.
 */
module PromiseExtensions {
  import opened Outcomes

  datatype Promise<T, Err> = Promise(outcome: Outcome<T, Err>, loadingState: Option<T>)

  /** `Promise.value(v)`: already fulfilled, no loading state. */
  function Value<T, Err>(v: T): Promise<T, Err>
  {
    Promise(Success(v), None)
  }

  /** `Promise(error: e)`: already rejected, no loading state. */
  function Rejected<T, Err>(e: Err): Promise<T, Err>
  {
    Promise(Failure(e), None)
  }

  /** `map`: fulfilment with `v` becomes fulfilment with `f(v)`, a rejection
      passes through, and the new promise has no loading state. */
  function Map<T, U, Err>(p: Promise<T, Err>, f: T -> U): (r: Promise<U, Err>)
    ensures r.outcome.Success? <==> p.outcome.Success?
    ensures p.outcome.Success? ==> r.outcome.value == f(p.outcome.value)
    ensures p.outcome.Failure? ==> r.outcome.error == p.outcome.error
    ensures r.loadingState == None
  {
    Promise(MapValue(p.outcome, f), None)
  }

  /** `mapError`: a rejection with `e` becomes a rejection with `g(e)`, a
      fulfilment passes through, and the loading state is copied. */
  function MapError<T, Err>(p: Promise<T, Err>, g: Err -> Err): (r: Promise<T, Err>)
    ensures r.outcome.Success? <==> p.outcome.Success?
    ensures p.outcome.Success? ==> r.outcome.value == p.outcome.value
    ensures p.outcome.Failure? ==> r.outcome.error == g(p.outcome.error)
    ensures r.loadingState == p.loadingState
  {
    Promise(MapFailure(p.outcome, g), p.loadingState)
  }

  /** `mapErrorRecover`: the result always fulfils, with the original value
      or with `g(e)` for a rejection with `e`; the loading state is copied. */
  function MapErrorRecover<T, Err>(p: Promise<T, Err>, g: Err -> T): (r: Promise<T, Err>)
    ensures r.outcome.Success?
    ensures p.outcome.Success? ==> r.outcome.value == p.outcome.value
    ensures p.outcome.Failure? ==> r.outcome.value == g(p.outcome.error)
    ensures r.loadingState == p.loadingState
  {
    Promise(Recover(p.outcome, g), p.loadingState)
  }

  /** `flatMap`: a fulfilment with `v` adopts the outcome of `f(v)`, a
      rejection short-circuits; neither the source's nor `f(v)`'s loading
      state is carried over. */
  function FlatMap<T, U, Err>(p: Promise<T, Err>, f: T -> Promise<U, Err>): (r: Promise<U, Err>)
    ensures p.outcome.Success? ==> r.outcome == f(p.outcome.value).outcome
    ensures p.outcome.Failure? ==> r.outcome == Failure(p.outcome.error)
    ensures r.loadingState == None
  {
    Promise(Bind(p.outcome, x => f(x).outcome), None)
  }

  /** `stateWhenLoading`: sets the loading state of the receiver and hands
      the receiver back; how it settles is untouched. */
  function StateWhenLoading<T, Err>(p: Promise<T, Err>, s: T): (r: Promise<T, Err>)
    ensures r.outcome == p.outcome
    ensures r.loadingState == Some(s)
  {
    p.(loadingState := Some(s))
  }

  /** `zip(a, b)`, built as `a.flatMap { x in b.map { y in (x, y) } }`. */
  function Zip2<A, B, Err>(a: Promise<A, Err>, b: Promise<B, Err>): (r: Promise<(A, B), Err>)
    ensures r.outcome.Success? <==> a.outcome.Success? && b.outcome.Success?
    ensures r.outcome.Success? ==> r.outcome.value == (a.outcome.value, b.outcome.value)
    ensures ErrorOf(r.outcome) == OrElse(ErrorOf(a.outcome), ErrorOf(b.outcome))
    ensures r.loadingState == None
  {
    FlatMap(a, (x: A) => Map(b, (y: B) => (x, y)))
  }

  /** `zip(a, b, c)`, built on `zip(a, b)`. */
  function Zip3<A, B, C, Err>(a: Promise<A, Err>, b: Promise<B, Err>, c: Promise<C, Err>)
    : (r: Promise<(A, B, C), Err>)
    ensures r.outcome.Success? <==> a.outcome.Success? && b.outcome.Success? && c.outcome.Success?
    ensures r.outcome.Success? ==>
      r.outcome.value == (a.outcome.value, b.outcome.value, c.outcome.value)
    ensures ErrorOf(r.outcome) ==
      OrElse(OrElse(ErrorOf(a.outcome), ErrorOf(b.outcome)), ErrorOf(c.outcome))
    ensures r.loadingState == None
  {
    FlatMap(Zip2(a, b), (pair: (A, B)) => Map(c, (z: C) => (pair.0, pair.1, z)))
  }

  /** `zip(a, b, c, d)`, built on `zip(a, b, c)`. */
  function Zip4<A, B, C, D, Err>(a: Promise<A, Err>, b: Promise<B, Err>, c: Promise<C, Err>,
                                 d: Promise<D, Err>)
    : (r: Promise<(A, B, C, D), Err>)
    ensures r.outcome.Success? <==>
      a.outcome.Success? && b.outcome.Success? && c.outcome.Success? && d.outcome.Success?
    ensures r.outcome.Success? ==>
      r.outcome.value == (a.outcome.value, b.outcome.value, c.outcome.value, d.outcome.value)
    ensures ErrorOf(r.outcome) ==
      OrElse(OrElse(OrElse(ErrorOf(a.outcome), ErrorOf(b.outcome)), ErrorOf(c.outcome)),
             ErrorOf(d.outcome))
    ensures r.loadingState == None
  {
    FlatMap(Zip3(a, b, c), (t: (A, B, C)) => Map(d, (w: D) => (t.0, t.1, t.2, w)))
  }

  /** `zip(a, b, c, d, e)`, built on `zip(a, b, c, d)`. */
  function Zip5<A, B, C, D, E, Err>(a: Promise<A, Err>, b: Promise<B, Err>, c: Promise<C, Err>,
                                    d: Promise<D, Err>, e: Promise<E, Err>)
    : (r: Promise<(A, B, C, D, E), Err>)
    ensures r.outcome.Success? <==>
      a.outcome.Success? && b.outcome.Success? && c.outcome.Success? && d.outcome.Success?
      && e.outcome.Success?
    ensures r.outcome.Success? ==>
      r.outcome.value ==
        (a.outcome.value, b.outcome.value, c.outcome.value, d.outcome.value, e.outcome.value)
    ensures ErrorOf(r.outcome) ==
      OrElse(OrElse(OrElse(OrElse(ErrorOf(a.outcome), ErrorOf(b.outcome)), ErrorOf(c.outcome)),
                    ErrorOf(d.outcome)),
             ErrorOf(e.outcome))
    ensures r.loadingState == None
  {
    FlatMap(Zip4(a, b, c, d), (t: (A, B, C, D)) => Map(e, (v: E) => (t.0, t.1, t.2, t.3, v)))
  }

  // ---------------------------------------------------------------------
  // Algebraic laws

  /** Mapping the identity leaves the outcome alone, but the result equals
      the source only when the source had no loading state to lose. */
  lemma MapIdentity<T, Err>(p: Promise<T, Err>)
    ensures Map(p, (x: T) => x).outcome == p.outcome
    ensures Map(p, (x: T) => x) == p <==> p.loadingState.None?
  {
  }

  /** Two maps in a row are one map of the composed transformation. */
  lemma MapComposition<T, U, V, Err>(p: Promise<T, Err>, f: T -> U, g: U -> V)
    ensures Map(Map(p, f), g) == Map(p, (x: T) => g(f(x)))
  {
  }

  /** On a rejected promise `map` never looks at its transformation. */
  lemma MapSkipsTransformOnFailure<T, U, Err>(p: Promise<T, Err>, f: T -> U, g: T -> U)
    requires p.outcome.Failure?
    ensures Map(p, f) == Map(p, g) == Rejected(p.outcome.error)
  {
  }

  /** On a rejected promise `flatMap` never looks at its continuation. */
  lemma FlatMapShortCircuits<T, U, Err>(p: Promise<T, Err>, f: T -> Promise<U, Err>,
                                        g: T -> Promise<U, Err>)
    requires p.outcome.Failure?
    ensures FlatMap(p, f) == FlatMap(p, g) == Rejected(p.outcome.error)
  {
  }

  /** `flatMap` is associative. */
  lemma FlatMapAssociative<T, U, V, Err>(p: Promise<T, Err>, f: T -> Promise<U, Err>,
                                         g: U -> Promise<V, Err>)
    ensures FlatMap(FlatMap(p, f), g) == FlatMap(p, (x: T) => FlatMap(f(x), g))
  {
  }

  /** `Promise.value` is a unit of `flatMap` on both sides, up to the
      loading state that `flatMap` always drops. */
  lemma FlatMapUnits<T, U, Err>(v: T, f: T -> Promise<U, Err>, p: Promise<T, Err>)
    ensures FlatMap(Value(v), f) == f(v).(loadingState := None)
    ensures FlatMap(p, (x: T) => Value(x)) == p.(loadingState := None)
  {
  }

  /** Setting the loading state twice keeps only the second one. */
  lemma StateWhenLoadingLastWins<T, Err>(p: Promise<T, Err>, s1: T, s2: T)
    ensures StateWhenLoading(StateWhenLoading(p, s1), s2) == StateWhenLoading(p, s2)
  {
  }

  /** Where `stateWhenLoading` stands in a chain decides whether the engine
      ever sees the loading state: error mapping keeps it, `map` and
      `flatMap` placed after it lose it. */
  lemma LoadingStateSurvivesOnlyErrorMapping<T, Err>(p: Promise<T, Err>, s: T, f: T -> T,
                                                     g: Err -> Err, h: Err -> T,
                                                     k: T -> Promise<T, Err>)
    ensures MapError(StateWhenLoading(p, s), g).loadingState == Some(s)
    ensures MapErrorRecover(StateWhenLoading(p, s), h).loadingState == Some(s)
    ensures Map(StateWhenLoading(p, s), f).loadingState == None
    ensures FlatMap(StateWhenLoading(p, s), k).loadingState == None
  {
  }

  /** The reducer idiom `p.map(f).stateWhenLoading(l).mapErrorRecover(g)`:
      it always fulfils, and it carries `l` as its loading state. */
  lemma LoadingChainAlwaysFulfils<T, S, Err>(p: Promise<T, Err>, f: T -> S, l: S, g: Err -> S)
    ensures MapErrorRecover(StateWhenLoading(Map(p, f), l), g).loadingState == Some(l)
    ensures MapErrorRecover(StateWhenLoading(Map(p, f), l), g).outcome ==
      match p.outcome
      case Success(v) => Success(f(v))
      case Failure(e) => Success(g(e))
  {
  }

  /** Swapping the arguments of `zip` swaps the pair it fulfils with, but
      not which error wins when both fail: that is always the first
      argument's. */
  lemma ZipSwapKeepsFirstError<A, B, Err>(a: Promise<A, Err>, b: Promise<B, Err>)
    ensures Zip2(a, b).outcome.Success? <==> Zip2(b, a).outcome.Success?
    ensures Zip2(a, b).outcome.Success? ==>
      Zip2(a, b).outcome.value == (Zip2(b, a).outcome.value.1, Zip2(b, a).outcome.value.0)
    ensures a.outcome.Failure? && b.outcome.Failure? ==>
      && Zip2(a, b) == Rejected(a.outcome.error)
      && Zip2(b, a) == Rejected(b.outcome.error)
  {
  }
}
