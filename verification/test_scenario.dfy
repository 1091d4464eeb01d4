/** The library's own test reducer run through the engine.

    The test's product fetch becomes a parameter: it is whatever promise
    the caller supplies, so every way a single fetch can settle is
    covered.
 */
module TestScenario {
  import opened Outcomes
  import opened PromiseExtensions
  import opened Systems

  type Product = string

  datatype TestState<Err> = Loading | ShowingProduct(product: Product) | ShowingError(error: Err)

  datatype TestEvent = LoadProduct

  /** `TestState.reduce`: map the fetched product to a showing state, show
      `loading` meanwhile, and recover a failed fetch into an error state. */
  function TestReduce<Err(!new)>(fetch: Promise<Product, Err>)
    : (r: (TestState<Err>, TestEvent) -> Promise<TestState<Err>, Err>)
    ensures forall s: TestState<Err> ::
      && r(s, LoadProduct).loadingState == Some(Loading)
      && r(s, LoadProduct).outcome == Success(match fetch.outcome
                                             case Success(p) => ShowingProduct(p)
                                             case Failure(e) => ShowingError(e))
  {
    (s: TestState<Err>, e: TestEvent) =>
      MapErrorRecover(
        StateWhenLoading(Map(fetch, (p: Product) => ShowingProduct(p)), Loading),
        (err: Err) => ShowingError(err))
  }

  /** Loading a product publishes the initial state, then `loading`, then
      the product, or the error if the fetch failed; the engine is idle
      afterwards either way. */
  lemma LoadProductPublishesLoadingThenResult<Err(!new)>(fetch: Promise<Product, Err>,
                                                        uiBindings: seq<Option<Handle>>)
    ensures var sys := Settle(SendEvent(Pure(Loading, TestReduce(fetch), uiBindings), LoadProduct));
            && !sys.actionExecuting
            && sys.published ==
                 [Loading, Loading,
                  match fetch.outcome
                  case Success(p) => ShowingProduct(p)
                  case Failure(e) => ShowingError(e)]
            && sys.currentState == sys.published[2]
  {
    var start := Pure(Loading, TestReduce<Err>(fetch), uiBindings);
    OneEventCycle(start, LoadProduct);
  }

  /** The concrete run of the test: the fetch yields "Yeezy 500" and the
      binding sees `loading` and then that product. */
  lemma YeezyScenario<Err(!new)>(uiBindings: seq<Option<Handle>>)
    ensures var fetch := Value<Product, Err>("Yeezy 500");
            var sys := Settle(SendEvent(Pure(Loading, TestReduce(fetch), uiBindings), LoadProduct));
            sys.published[1..] == [Loading, ShowingProduct("Yeezy 500")]
  {
    LoadProductPublishesLoadingThenResult(Value<Product, Err>("Yeezy 500"), uiBindings);
  }
}
