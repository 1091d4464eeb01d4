/** `AsyncResult`: a promise wrapper with an observation status.

    The wrapped promise is modelled by how it settles. The three stored
    properties that `fold` writes (`isLoading`, `result`, `error`) form a
    separate status record, because they reflect what has been observed so
    far, not what the promise will do. `fold` is split into the step that
    runs synchronously (`FoldBegin`) and the step that runs when the promise
    settles (`FoldSettle`); the callbacks it invokes are returned as a trace.
 */
module AsyncResults {
  import opened Outcomes

  datatype Status<T, Err> = Status(isLoading: bool, result: Option<T>, error: Option<Err>)

  datatype AsyncResult<T, Err> = AsyncResult(promise: Outcome<T, Err>, status: Status<T, Err>)

  /** The callbacks a `fold` can run, in the order they run. */
  datatype Callback<T, Err> = LoadingRan | SuccessRan(value: T) | FailureRan(error: Err)

  /** The status of a result nobody has folded yet: not loading, nothing
      recorded. */
  predicate Unobserved<T, Err>(s: Status<T, Err>)
  {
    !s.isLoading && s.result.None? && s.error.None?
  }

  /** `init(_ promise:)`: wraps a promise; nothing is observed yet. */
  function Make<T, Err>(p: Outcome<T, Err>): (r: AsyncResult<T, Err>)
    ensures r.promise == p
    ensures Unobserved(r.status)
  {
    AsyncResult(p, Status(false, None, None))
  }

  /** The synchronous half of `fold`: the `loading` callback runs, then the
      result is marked as loading. Nothing else is recorded. */
  function FoldBegin<T, Err>(a: AsyncResult<T, Err>): (r: (AsyncResult<T, Err>, seq<Callback<T, Err>>))
    ensures r.0.status.isLoading
    ensures r.0.promise == a.promise
    ensures r.0.status.result == a.status.result && r.0.status.error == a.status.error
    ensures r.1 == [LoadingRan]
  {
    (a.(status := a.status.(isLoading := true)), [LoadingRan])
  }

  /** The half of `fold` that runs once the promise settles: loading ends
      and exactly one of `success`/`failure` runs, after recording the value
      in `result` or the error in `error`; the other field keeps whatever it
      held. */
  function FoldSettle<T, Err>(a: AsyncResult<T, Err>): (r: (AsyncResult<T, Err>, seq<Callback<T, Err>>))
    ensures !r.0.status.isLoading
    ensures r.0.promise == a.promise
    ensures |r.1| == 1
    ensures a.promise.Success? ==>
      && r.0.status.result == Some(a.promise.value)
      && r.0.status.error == a.status.error
      && r.1[0] == SuccessRan(a.promise.value)
    ensures a.promise.Failure? ==>
      && r.0.status.error == Some(a.promise.error)
      && r.0.status.result == a.status.result
      && r.1[0] == FailureRan(a.promise.error)
  {
    match a.promise
    case Success(v) =>
      (a.(status := a.status.(isLoading := false, result := Some(v))), [SuccessRan(v)])
    case Failure(e) =>
      (a.(status := a.status.(isLoading := false, error := Some(e))), [FailureRan(e)])
  }

  /** A complete `fold` of a fresh result: `loading` first, then exactly one
      of the two settlement callbacks, and the status ends up recording
      exactly how the promise settled. */
  lemma FoldOfFreshResult<T, Err>(p: Outcome<T, Err>)
    ensures FoldBegin(Make(p)).0.status.isLoading
    ensures var (mid, first) := FoldBegin(Make(p));
            var (done, second) := FoldSettle(mid);
            && first + second ==
                 (match p
                  case Success(v) => [LoadingRan, SuccessRan(v)]
                  case Failure(e) => [LoadingRan, FailureRan(e)])
            && !done.status.isLoading
            && done.status.result == (if p.Success? then Some(p.value) else None)
            && done.status.error == ErrorOf(p)
  {
  }

  /** `map`: a fresh, unobserved result whose promise fulfils with `f(v)`
      when the source fulfils with `v`, and rejects with the source's error
      otherwise. */
  function Map<T, U, Err>(a: AsyncResult<T, Err>, f: T -> U): (r: AsyncResult<U, Err>)
    ensures Unobserved(r.status)
    ensures r.promise.Success? <==> a.promise.Success?
    ensures a.promise.Success? ==> r.promise.value == f(a.promise.value)
    ensures a.promise.Failure? ==> r.promise.error == a.promise.error
  {
    Make(MapValue(a.promise, f))
  }

  /** `mapError`: a fresh, unobserved result whose promise rejects with
      `g(e)` when the source rejects with `e`, and fulfils like the source
      otherwise. */
  function MapError<T, Err>(a: AsyncResult<T, Err>, g: Err -> Err): (r: AsyncResult<T, Err>)
    ensures Unobserved(r.status)
    ensures r.promise.Success? <==> a.promise.Success?
    ensures a.promise.Success? ==> r.promise.value == a.promise.value
    ensures a.promise.Failure? ==> r.promise.error == g(a.promise.error)
  {
    Make(MapFailure(a.promise, g))
  }

  /** `flatMap`: a fresh, unobserved result that adopts how `f(v)`'s promise
      settles when the source fulfils with `v`, and rejects with the
      source's error without consulting `f` otherwise. */
  function FlatMap<T, U, Err>(a: AsyncResult<T, Err>, f: T -> AsyncResult<U, Err>)
    : (r: AsyncResult<U, Err>)
    ensures Unobserved(r.status)
    ensures a.promise.Success? ==> r.promise == f(a.promise.value).promise
    ensures a.promise.Failure? ==> r.promise == Failure(a.promise.error)
  {
    Make(Bind(a.promise, x => f(x).promise))
  }

  /** `==` as written: false as soon as either side is loading or has
      recorded an error, otherwise a comparison of the recorded results,
      where two absent results compare equal. */
  predicate Equal<T(==), Err>(lhs: AsyncResult<T, Err>, rhs: AsyncResult<T, Err>)
    ensures lhs.status.isLoading || rhs.status.isLoading ==> !Equal(lhs, rhs)
    ensures lhs.status.error.Some? || rhs.status.error.Some? ==> !Equal(lhs, rhs)
    ensures !lhs.status.isLoading && !rhs.status.isLoading
            && lhs.status.error.None? && rhs.status.error.None? ==>
              (Equal(lhs, rhs) <==> lhs.status.result == rhs.status.result)
  {
    var areLoading := lhs.status.isLoading || rhs.status.isLoading;
    var areError := lhs.status.error.Some? || rhs.status.error.Some?;
    var sameResult := lhs.status.result == rhs.status.result;
    !areLoading && !areError && sameResult
  }

  /** `==` is symmetric. */
  lemma EqualSymmetric<T, Err>(lhs: AsyncResult<T, Err>, rhs: AsyncResult<T, Err>)
    ensures Equal(lhs, rhs) <==> Equal(rhs, lhs)
  {
  }

  /** `==` is not reflexive: a result that is being folded is not even equal
      to itself. */
  lemma EqualNotReflexiveWhileLoading<T, Err>(a: AsyncResult<T, Err>)
    ensures !Equal(FoldBegin(a).0, FoldBegin(a).0)
  {
  }

  /** As written, any two results nobody has folded compare equal, whatever
      their promises will settle to: both `result`s are absent. */
  lemma UnobservedResultsCompareEqual<T, Err>(p: Outcome<T, Err>, q: Outcome<T, Err>)
    ensures Equal(Make(p), Make(q))
  {
  }

  /** A concrete instance: a result over `Promise.value(x)` equals one over a
      rejected promise, and one over `Promise.value(y)` for any `y`, as long
      as neither has been folded. */
  lemma FulfilledEqualsRejectedBeforeFold(x: int, y: int)
    ensures Equal(Make<int, string>(Success(x)), Make<int, string>(Failure("network")))
    ensures Equal(Make<int, string>(Success(x)), Make<int, string>(Success(y)))
  {
  }

  /** The comparison the design describes: equal only when both sides have
      settled successfully and recorded the same value. */
  predicate SettledEqual<T(==), Err>(lhs: AsyncResult<T, Err>, rhs: AsyncResult<T, Err>)
    ensures SettledEqual(lhs, rhs) <==>
      && !lhs.status.isLoading && !rhs.status.isLoading
      && lhs.status.error.None? && rhs.status.error.None?
      && lhs.status.result.Some? && rhs.status.result.Some?
      && lhs.status.result.value == rhs.status.result.value
  {
    Equal(lhs, rhs) && lhs.status.result.Some?
  }

  /** The corrected comparison agrees with `==` whenever a value has been
      recorded, and never calls an unobserved result equal to anything. */
  lemma SettledEqualRefinesEqual<T, Err>(lhs: AsyncResult<T, Err>, rhs: AsyncResult<T, Err>)
    ensures SettledEqual(lhs, rhs) ==> Equal(lhs, rhs)
    ensures lhs.status.result.Some? ==> (SettledEqual(lhs, rhs) <==> Equal(lhs, rhs))
    ensures Unobserved(lhs.status) || Unobserved(rhs.status) ==> !SettledEqual(lhs, rhs)
    ensures SettledEqual(lhs, rhs) <==> SettledEqual(rhs, lhs)
  {
  }

  /** Two fresh results over fulfilling promises are equal under the
      corrected comparison after both are folded exactly when their values
      are equal. */
  lemma SettledEqualAfterFold<T, Err>(x: T, y: T)
    ensures var l := FoldSettle(FoldBegin(Make<T, Err>(Success(x))).0).0;
            var r := FoldSettle(FoldBegin(Make<T, Err>(Success(y))).0).0;
            SettledEqual(l, r) <==> x == y
  {
  }

  // ---------------------------------------------------------------------
  // Algebraic laws on how the wrapped promise settles

  /** `map` of the identity keeps the promise; the result is a fresh
      observation, so it equals the source only if nobody observed it. */
  lemma MapIdentity<T, Err>(a: AsyncResult<T, Err>)
    ensures Map(a, (x: T) => x).promise == a.promise
    ensures Map(a, (x: T) => x) == a <==> Unobserved(a.status)
  {
  }

  /** `mapError` of the identity keeps the promise; like `map`, it equals
      the source only if nobody observed the source. */
  lemma MapErrorIdentity<T, Err>(a: AsyncResult<T, Err>)
    ensures MapError(a, (e: Err) => e).promise == a.promise
    ensures MapError(a, (e: Err) => e) == a <==> Unobserved(a.status)
  {
  }

  /** Two maps in a row are one map of the composed transformation. */
  lemma MapComposition<T, U, V, Err>(a: AsyncResult<T, Err>, f: T -> U, g: U -> V)
    ensures Map(Map(a, f), g) == Map(a, (x: T) => g(f(x)))
  {
  }

  /** On a rejected promise `map` never looks at its transformation. */
  lemma MapSkipsTransformOnFailure<T, U, Err>(a: AsyncResult<T, Err>, f: T -> U, g: T -> U)
    requires a.promise.Failure?
    ensures Map(a, f) == Map(a, g) == Make(Failure(a.promise.error))
  {
  }

  /** On a rejected promise `flatMap` never looks at its continuation. */
  lemma FlatMapShortCircuits<T, U, Err>(a: AsyncResult<T, Err>, f: T -> AsyncResult<U, Err>,
                                        g: T -> AsyncResult<U, Err>)
    requires a.promise.Failure?
    ensures FlatMap(a, f) == FlatMap(a, g) == Make(Failure(a.promise.error))
  {
  }

  /** `flatMap` is associative. */
  lemma FlatMapAssociative<T, U, V, Err>(a: AsyncResult<T, Err>, f: T -> AsyncResult<U, Err>,
                                         g: U -> AsyncResult<V, Err>)
    ensures FlatMap(FlatMap(a, f), g) == FlatMap(a, (x: T) => FlatMap(f(x), g))
  {
  }
}
