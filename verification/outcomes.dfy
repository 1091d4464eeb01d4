/** Settled values of a deferred computation, shared by the Promise extension
    and by AsyncResult.

    A PromiseKit promise either fulfils with a value or rejects with an
    error. Every combinator modelled here attaches a `done` continuation
    (run on fulfilment) and a `catch` continuation (run on rejection);
    once time is abstracted away, such a promise is fully
    described by the way it settles, an `Outcome`. The helpers below are the
    `done`/`catch` shapes the combinators of both layers are built from;
    their contracts are stated where the source's operations are modelled.
 */
module Outcomes {

  datatype Option<T> = None | Some(value: T)

  /** How a deferred computation settles: fulfilled or rejected. The error
      type is opaque: the library only ever passes errors along. */
  datatype Outcome<T, Err> = Success(value: T) | Failure(error: Err)

  /** The error an outcome carries, if it was rejected. */
  function ErrorOf<T, Err>(o: Outcome<T, Err>): Option<Err>
  {
    match o
    case Success(_) => None
    case Failure(e) => Some(e)
  }

  /** The first of two optional errors, in argument order. */
  function OrElse<Err>(x: Option<Err>, y: Option<Err>): Option<Err>
  {
    if x.Some? then x else y
  }

  /** `done { fulfil(f(v)) } catch { reject(e) }` */
  function MapValue<T, U, Err>(o: Outcome<T, Err>, f: T -> U): Outcome<U, Err>
  {
    match o
    case Success(v) => Success(f(v))
    case Failure(e) => Failure(e)
  }

  /** `done { fulfil(v) } catch { reject(g(e)) }` */
  function MapFailure<T, Err>(o: Outcome<T, Err>, g: Err -> Err): Outcome<T, Err>
  {
    match o
    case Success(v) => Success(v)
    case Failure(e) => Failure(g(e))
  }

  /** `done { fulfil(v) } catch { fulfil(g(e)) }` */
  function Recover<T, Err>(o: Outcome<T, Err>, g: Err -> T): Outcome<T, Err>
  {
    match o
    case Success(v) => Success(v)
    case Failure(e) => Success(g(e))
  }

  /** `done { adopt the outcome of f(v) } catch { reject(e) }` */
  function Bind<T, U, Err>(o: Outcome<T, Err>, f: T -> Outcome<U, Err>): Outcome<U, Err>
  {
    match o
    case Success(v) => f(v)
    case Failure(e) => Failure(e)
  }
}
