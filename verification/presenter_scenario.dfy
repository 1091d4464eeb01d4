/** The example presenter's reducer run through the engine.

    The network calls the presenter makes (`getProduct`, `getUser`,
    `addToCart`) become function parameters, so every way a single call
    can settle is covered; a parameter gives the same promise for the same
    argument each time, so a cart call that succeeds once and fails the
    next time is not.
 */
module PresenterScenario {
  import opened Outcomes
  import opened PromiseExtensions
  import opened Systems

  type Product = string
  type User = string
  type CartResponse = string

  datatype State<Err> =
    | Start
    | Loading
    | ProductLoaded(product: Product)
    | AddedToCart(product: Product, response: CartResponse)
    | Error(error: Err)

  datatype Event = LoadProduct | AddToCart

  /** The body of the `flatMap` in the `addToCart` branch: the cart call,
      mapped to `addedToCart` and with its failure recovered into an error
      state, so it always fulfils. */
  function CartCallRecovered<Err>(pair: (Product, User),
                                  addToCart: (Product, User) -> Promise<CartResponse, Err>)
    : (r: Promise<State<Err>, Err>)
    ensures r.outcome == Success(match addToCart(pair.0, pair.1).outcome
                                 case Success(resp) => AddedToCart(pair.0, resp)
                                 case Failure(e) => Error(e))
  {
    MapErrorRecover(
      Map(addToCart(pair.0, pair.1), (resp: CartResponse) => AddedToCart(pair.0, resp)),
      (err: Err) => Error(err))
  }

  /** The `addToCart` branch of `State.reduce`: zip the product and the
      user, add to the cart, recover a failed cart call into an error state,
      and show `loading` meanwhile. */
  function AddToCartResult<Err>(product: Promise<Product, Err>, user: Promise<User, Err>,
                                addToCart: (Product, User) -> Promise<CartResponse, Err>)
    : (r: Promise<State<Err>, Err>)
    ensures r.loadingState == Some(Loading)
    ensures r.outcome.Success? <==> product.outcome.Success? && user.outcome.Success?
  {
    StateWhenLoading(
      FlatMap(Zip2(product, user), (pair: (Product, User)) => CartCallRecovered(pair, addToCart)),
      Loading)
  }

  /** `State.reduce`, over the promises the example's network calls return. */
  function PresenterReduce<Err(!new)>(getProduct: bool -> Promise<Product, Err>,
                                      getUser: Promise<User, Err>,
                                      addToCart: (Product, User) -> Promise<CartResponse, Err>)
    : (r: (State<Err>, Event) -> Promise<State<Err>, Err>)
    ensures forall s: State<Err> ::
      && r(s, LoadProduct).loadingState == Some(Loading)
      && r(s, LoadProduct).outcome == Success(match getProduct(false).outcome
                                             case Success(p) => ProductLoaded(p)
                                             case Failure(e) => Error(e))
    ensures forall s: State<Err> ::
      && r(s, AddToCart).loadingState == Some(Loading)
      && (r(s, AddToCart).outcome.Success? <==>
            getProduct(true).outcome.Success? && getUser.outcome.Success?)
  {
    (s: State<Err>, e: Event) =>
      match e
      case LoadProduct =>
        MapErrorRecover(
          StateWhenLoading(Map(getProduct(false), (p: Product) => ProductLoaded(p)), Loading),
          (err: Err) => Error(err))
      case AddToCart => AddToCartResult(getProduct(true), getUser, addToCart)
  }

  /** The `addToCart` reducer result shows `loading`; it recovers a failed
      cart call into an error state, but a failed product or user fetch is
      not recovered: the result then rejects with the first of those
      errors. */
  lemma AddToCartRecoversOnlyTheCartCall<Err>(product: Promise<Product, Err>,
                                              user: Promise<User, Err>,
                                              addToCart: (Product, User) -> Promise<CartResponse, Err>)
    ensures var r := AddToCartResult(product, user, addToCart);
            && r.loadingState == Some(Loading)
            && (r.outcome.Success? <==> product.outcome.Success? && user.outcome.Success?)
            && (product.outcome.Failure? ==> r.outcome == Failure(product.outcome.error))
            && (product.outcome.Success? && user.outcome.Failure? ==>
                  r.outcome == Failure(user.outcome.error))
            && (product.outcome.Success? && user.outcome.Success? ==>
                  var (p, u) := (product.outcome.value, user.outcome.value);
                  r.outcome == Success(match addToCart(p, u).outcome
                                       case Success(resp) => AddedToCart(p, resp)
                                       case Failure(e) => Error(e)))
  {
  }

  /** `loadProduct` on a fresh presenter engine publishes `start`, then
      `loading`, then the loaded product, or the error if the fetch failed;
      the engine is idle afterwards either way. */
  lemma LoadProductShowsProductOrError<Err(!new)>(getProduct: bool -> Promise<Product, Err>,
                                                  getUser: Promise<User, Err>,
                                                  addToCart: (Product, User) -> Promise<CartResponse, Err>,
                                                  uiBindings: seq<Option<Handle>>)
    ensures var reducer := PresenterReduce(getProduct, getUser, addToCart);
            var sys := Settle(SendEvent(Pure(Start, reducer, uiBindings), LoadProduct));
            && !sys.actionExecuting
            && sys.published ==
                 [Start, Loading,
                  match getProduct(false).outcome
                  case Success(p) => ProductLoaded(p)
                  case Failure(e) => Error(e)]
            && sys.currentState == sys.published[2]
  {
    var start := Pure(Start, PresenterReduce(getProduct, getUser, addToCart), uiBindings);
    OneEventCycle(start, LoadProduct);
  }

  /** When the cached product fetch fails, sending `addToCart` to a fresh
      presenter engine publishes `loading` and then nothing more: the engine
      stays busy for good, and every later event only queues. */
  lemma FailedFetchStallsPresenter<Err(!new)>(getProduct: bool -> Promise<Product, Err>,
                                              getUser: Promise<User, Err>,
                                              addToCart: (Product, User) -> Promise<CartResponse, Err>,
                                              uiBindings: seq<Option<Handle>>,
                                              later: seq<Step<Event>>)
    requires getProduct(true).outcome.Failure?
    ensures var reducer := PresenterReduce(getProduct, getUser, addToCart);
            var sys := Settle(SendEvent(Pure(Start, reducer, uiBindings), AddToCart));
            var r := Run(sys, later);
            && r.published == [Start, Loading]
            && r.reducerInputs == [(Start, AddToCart)]
            && r.actionExecuting
            && r.eventQueue == Sent(later)
  {
    var reducer := PresenterReduce(getProduct, getUser, addToCart);
    var start := Pure(Start, reducer, uiBindings);
    AddToCartRecoversOnlyTheCartCall(getProduct(true), getUser, addToCart);
    OneEventCycle(start, AddToCart);
    StalledEngineOnlyQueues(Settle(SendEvent(start, AddToCart)), later);
  }
}
