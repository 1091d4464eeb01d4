# PromisedArchitectureKit in Dafny

A model of the core of PromisedArchitectureKit, a small unidirectional
state engine for iOS apps. The model has three parts.

- **The event-loop engine** (`System`). It holds the current state, a FIFO
  event queue, a busy flag (`actionExecuting`), an optional loop callback
  and an ordered list of optional UI bindings. `sendEvent` queues an event
  while the engine is busy. Otherwise it calls the reducer, which returns a
  promise of the next state. A loading state attached to that promise is
  published at once. When the promise fulfils, its value becomes the
  current state, is published, and goes to the loop callback; the engine
  then becomes idle and sends the head of the queue.
- **The deferred-result algebra**. This covers the `Promise` extension
  (`map`, `mapError`, `mapErrorRecover`, `flatMap`, `stateWhenLoading`,
  `zip` of 2 to 5 promises, and the `loadingState` they carry or drop) and
  the `AsyncResult` wrapper (`fold`, `map`, `mapError`, `flatMap`, `==`).
- **Action sources** (`Action`, `CustomAction`, `UIButtonAction`). These are
  listener lists that pass an event on to the engines listening to them.

Asynchrony is abstracted into the way a promise settles: an `Outcome`
(fulfilled with a value or rejected with an error). The engine is a
record, and its operations are pure transition functions. `SendEvent`
starts the loop and keeps the reducer's promise in flight. `Settle` is one
step that stands for the later main-queue turns on which that promise
settles and its `.map` and `.done` continuations run. The engine logs
every effect it has on the outside world: the reducer's inputs, the
published states, each binding invocation and each callback invocation.
Ordering properties are stated over these logs.

Files: `outcomes.dfy` (shared `Option`/`Outcome`), `promise_extensions.dfy`,
`async_result.dfy`, `system.dfy`, `action.dfy`, `wiring.dfy` (actions
feeding an engine), `test_scenario.dfy` and `presenter_scenario.dfy` (the
example reducers run through the engine).

The shown sources do not fit together exactly. The model joins them as
follows:

- `System` reads `loadingResult` and `promise` from the reducer's
  `AsyncResult`, but `AsyncResult` exposes neither: `promise` is private
  (`Classes/AsyncResult.swift`, line 13) and there is no `loadingResult`. The tests and the
  example also call `stateWhenLoading` and `mapErrorRecover` on
  reducer results, and only `Promise` defines those. So the model's reducer
  returns the `Promise` record, which has an outcome and a `loadingState`.
- `Action.notify` calls `onAction`, which `System` does not declare. The
  model takes it to be `sendEvent` (`Wiring.Deliver`).
- A test passes `actions:` to `System.pure`, which takes no such
  parameter. In the model, actions are connected to an engine through
  `Wiring` instead.

Where the design description and the code disagree, the model follows the
code:

- The code has one loop callback, and installing a new one replaces it.
  It does not keep a list of subscribers.
- The code has no reaction cascade and no history.
- A rejected reducer promise is not turned into a state. The engine just
  stays busy for good (`Systems.StalledEngineOnlyQueues`).
- `AsyncResult`'s `==` calls two never-folded results equal (see Findings).

## Model

| member | source | states |
|---|---|---|
| PromiseExtensions.Map | Classes/PromiseKit+Extensions.swift:24-33 | fulfilment with v becomes fulfilment with f(v); a rejection keeps its error; the loading state is not carried over |
| PromiseExtensions.MapError | Classes/PromiseKit+Extensions.swift:35-47 | a rejection with e becomes a rejection with g(e); a fulfilment passes through; the loading state is copied |
| PromiseExtensions.MapErrorRecover | Classes/PromiseKit+Extensions.swift:49-61 | the result always fulfils, with v unchanged or with g(e) for a rejection with e; the loading state is copied |
| PromiseExtensions.FlatMap | Classes/PromiseKit+Extensions.swift:63-78 | a fulfilment with v adopts the outcome of f(v); a rejection short-circuits with its error; no loading state is carried over, neither the source's nor f(v)'s |
| PromiseExtensions.StateWhenLoading | Classes/PromiseKit+Extensions.swift:80-83 | the loading state becomes Some(s) and the outcome is unchanged |
| PromiseExtensions.Zip2 | Classes/PromiseKit+Extensions.swift:89-95 | fulfils with (va, vb) iff both fulfil; the error is a's if a fails, otherwise b's; no loading state |
| PromiseExtensions.Zip3 | Classes/PromiseKit+Extensions.swift:97-103 | fulfils with the three values in argument order iff all fulfil; the error is that of the first failing argument |
| PromiseExtensions.Zip4 | Classes/PromiseKit+Extensions.swift:105-111 | fulfils with the four values in argument order iff all fulfil; the error is that of the first failing argument |
| PromiseExtensions.Zip5 | Classes/PromiseKit+Extensions.swift:113-119 | fulfils with the five values in argument order iff all fulfil; the error is that of the first failing argument |
| PromiseExtensions.MapIdentity | Classes/PromiseKit+Extensions.swift:24-33 | map(id) keeps the outcome; the result equals the source iff the source had no loading state |
| PromiseExtensions.MapComposition | Classes/PromiseKit+Extensions.swift:24-33 | map(f) followed by map(g) equals map(g after f) |
| PromiseExtensions.MapSkipsTransformOnFailure | Classes/PromiseKit+Extensions.swift:24-33 | on a rejected promise the result of map does not depend on the transformation |
| PromiseExtensions.FlatMapShortCircuits | Classes/PromiseKit+Extensions.swift:63-78 | on a rejected promise the result of flatMap does not depend on the continuation |
| PromiseExtensions.FlatMapAssociative | Classes/PromiseKit+Extensions.swift:63-78 | p.flatMap(f).flatMap(g) equals p.flatMap(x => f(x).flatMap(g)) |
| PromiseExtensions.FlatMapUnits | Classes/PromiseKit+Extensions.swift:63-78 | Promise.value is a left and right unit of flatMap, up to the dropped loading state |
| PromiseExtensions.StateWhenLoadingLastWins | Classes/PromiseKit+Extensions.swift:80-83 | setting the loading state twice keeps the second value |
| PromiseExtensions.LoadingStateSurvivesOnlyErrorMapping | Classes/PromiseKit+Extensions.swift:24-83 | a loading state set earlier in a chain survives mapError and mapErrorRecover, and is lost through map and flatMap |
| PromiseExtensions.LoadingChainAlwaysFulfils | Example/PromisedArchitectureKit/Presenter.swift:46-49 | map(f).stateWhenLoading(l).mapErrorRecover(g) carries loading state l and fulfils with f(v) or g(e) |
| PromiseExtensions.ZipSwapKeepsFirstError | Classes/PromiseKit+Extensions.swift:89-95 | swapping the arguments of zip swaps the fulfilled pair, but when both reject the error is always that of the first argument, so zip(a, b) rejects with a's error and zip(b, a) with b's |
| AsyncResults.Make | Classes/AsyncResult.swift:19-21 | wrapping a promise records nothing: not loading, no result, no error |
| AsyncResults.FoldBegin | Classes/AsyncResult.swift:23-30 | the loading callback runs first and then isLoading becomes true; result and error are untouched |
| AsyncResults.FoldSettle | Classes/AsyncResult.swift:31-39 | on settlement isLoading becomes false, and exactly one of success/failure runs after recording the value in result or the error in error |
| AsyncResults.FoldOfFreshResult | Classes/AsyncResult.swift:23-40 | a full fold of a fresh result runs loading and then exactly one settlement callback, and its status then records exactly how the promise settled |
| AsyncResults.Map | Classes/AsyncResult.swift:42-53 | a fresh unobserved result that fulfils with f(v) or rejects with the source's error |
| AsyncResults.MapError | Classes/AsyncResult.swift:55-66 | a fresh unobserved result that rejects with g(e) or fulfils like the source |
| AsyncResults.FlatMap | Classes/AsyncResult.swift:68-84 | a fresh unobserved result that adopts f(v)'s promise or short-circuits with the source's error |
| AsyncResults.Equal | Classes/AsyncResult.swift:88-97 | false whenever either side is loading or has recorded an error; otherwise true iff the recorded results are equal, with absent == absent |
| AsyncResults.EqualSymmetric | Classes/AsyncResult.swift:89-97 | == is symmetric |
| AsyncResults.EqualNotReflexiveWhileLoading | Classes/AsyncResult.swift:89-97 | a result that is being folded is not equal to itself |
| AsyncResults.UnobservedResultsCompareEqual | Classes/AsyncResult.swift:89-97 | for every pair of promises, two never-folded results over them compare equal, whatever the promises settle to |
| AsyncResults.FulfilledEqualsRejectedBeforeFold | Classes/AsyncResult.swift:89-97 | a concrete instance: a never-folded result over a fulfilled promise equals one over a rejected promise, and one over any other fulfilled value |
| AsyncResults.SettledEqual | Classes/AsyncResult.swift:89-97 | corrected comparison: true iff neither side is loading or errored, both have recorded a value and the values are equal |
| AsyncResults.SettledEqualRefinesEqual | Classes/AsyncResult.swift:89-97 | the corrected comparison implies ==, agrees with it once a value is recorded, is symmetric, and rejects every unobserved result |
| AsyncResults.SettledEqualAfterFold | Classes/AsyncResult.swift:23-40 | two folded results over fulfilling promises are equal under the corrected comparison iff their values are equal |
| AsyncResults.MapIdentity | Classes/AsyncResult.swift:42-53 | map(id) keeps the promise; the result equals the source iff the source was never observed |
| AsyncResults.MapErrorIdentity | Classes/AsyncResult.swift:55-66 | mapError(id) keeps the promise; the result equals the source iff the source was never observed |
| AsyncResults.MapComposition | Classes/AsyncResult.swift:42-53 | map(f) followed by map(g) equals map(g after f) |
| AsyncResults.MapSkipsTransformOnFailure | Classes/AsyncResult.swift:42-53 | on a rejected promise the result of map does not depend on the transformation |
| AsyncResults.FlatMapShortCircuits | Classes/AsyncResult.swift:68-84 | on a rejected promise the result of flatMap does not depend on the continuation |
| AsyncResults.FlatMapAssociative | Classes/AsyncResult.swift:68-84 | flatMap is associative |
| Systems.BindFrom | Classes/System.swift:88-92 | from a given slot on, every non-nil binding is delivered the state once, in increasing slot order, and no other slot is |
| Systems.BindUI | Classes/System.swift:88-92 | every non-nil binding receives the state exactly once, in list order; nil bindings are skipped |
| Systems.Init | Classes/System.swift:21-30 | the engine stores the given initial state, reducer and bindings, and the current state starts as the initial state; idle, empty queue, no callback, nothing logged |
| Systems.Pure | Classes/System.swift:32-41 | the engine holds the given initial state, reducer and bindings; the initial state is current and published exactly once, to every non-nil binding in list order; the engine is idle and satisfies the invariant |
| Systems.AddLoopCallback | Classes/System.swift:43-45 | the callback becomes the given one, replacing any previous one, and nothing else changes |
| Systems.StartLoop | Classes/System.swift:69-80 | the reducer is called once with (currentState, event) and its promise is kept in flight; its loading state, if any, is published and nothing else is; the setup, the busy flag, the queue, the state and the callback log are untouched; consistency of the delivery log is kept |
| Systems.SendEvent | Classes/System.swift:49-80 | while busy the event is appended to the queue and nothing else changes; while idle the engine becomes busy, calls the reducer once with (currentState, event) and publishes the result's loading state if any; in both cases the setup (initial state, reducer, bindings, callback) is kept, the accepted-event sequence grows by exactly this event and the invariant is kept |
| Systems.Fulfil | Classes/System.swift:55-85 | with nothing in flight, a fulfilment with v makes v current and publishes it, gives it to the callback if one is set, and then leaves the engine idle with an empty queue or sends the head of the queue, whose reducer call sees v; the setup, including the callback, is kept; the accepted-event sequence is kept, and a consistent engine ends up satisfying the invariant |
| Systems.Settle | Classes/System.swift:55-85 | with nothing in flight nothing changes; a rejection only drops the promise, so nothing is published, no callback fires and the engine stays busy; a fulfilment with v is Fulfil with v; the setup, the accepted-event sequence and the invariant are kept |
| Systems.StepKeepsSendOrder | Classes/System.swift:49-66 | each step keeps the busy/queue invariant and accepts exactly the event it sends, after the events accepted before |
| Systems.StepOnlyAppends | Classes/System.swift:49-85 | a step only appends to the publication log and to the reducer log |
| Systems.RunKeepsSendOrder | Classes/System.swift:49-66 | over any run, the reducer's events followed by the queue are the accepted events followed by the sent events: nothing is dropped, reordered or duplicated; the invariant holds throughout |
| Systems.RunOnlyAppends | Classes/System.swift:49-85 | over any run, what was already published or handed to the reducer stays, in the same order, at the front of its log |
| Systems.ReducerSeesEventsInSendOrder | Classes/System.swift:49-66 | FIFO: from pure, the events the reducer has seen are a prefix of the sent events, in send order, and the rest are queued |
| Systems.StalledEngineOnlyQueues | Classes/System.swift:51-65 | a busy engine with nothing in flight (where a rejected promise leaves it) never calls the reducer, publishes or fires the callback again; every sent event only queues |
| Systems.OneEventCycle | Classes/System.swift:49-85 | from idle, one event calls the reducer once; the loading state is published before the final state; fulfilment makes the final state current, calls the callback and leaves the engine idle; rejection leaves it stalled |
| Systems.CallbackReplaced | Classes/System.swift:43-59 | installing two callbacks equals installing the second, and a successful settlement calls only that one, once |
| Actions.AddListener | Classes/Action.swift:15-17 | the listener is appended last and nothing else changes |
| Actions.ListenersInRegistrationOrder | Classes/Action.swift:15-17 | registering listeners one by one yields them in registration order |
| Actions.NotifyAll | Classes/Action.swift:19-23 | one notification per listener, carrying the event, in list order |
| Actions.Notify | Classes/Action.swift:19-23 | every listener receives the event exactly once, in list order; with no listeners nothing is delivered |
| Actions.NotifyAfterAddListener | Classes/Action.swift:15-23 | a listener registered later is notified after all earlier ones |
| Actions.MakeCustom | Classes/Action.swift:29-31 | a custom action keeps the event it was constructed with, and has no listeners |
| Actions.Execute | Classes/Action.swift:33-36 | every listener is notified with exactly the event supplied at construction |
| Actions.OnTap | Classes/Action.swift:48-53 | the event is stored under the touch-up-inside key and under no other key |
| Actions.DidTap | Classes/Action.swift:55-60 | with no event under touch-up-inside nobody is notified; otherwise every listener receives exactly that event once |
| Actions.TapDeliversOnTapEvent | Classes/Action.swift:48-60 | a tap on an onTap button delivers its event to the listeners in registration order |
| Wiring.Deliver | Classes/Action.swift:19-23 | a notification addressed to the engine is accepted as exactly its event and keeps the invariant; any other notification leaves the engine unchanged |
| Wiring.ReceiveKeepsValid | Classes/Action.swift:19-23 | a listening engine keeps its invariant whatever sequence of notifications it is handed |
| Wiring.ReceiveAcceptsAddressedEvents | Classes/Action.swift:19-23 | a listening engine accepts exactly the events addressed to it, in notification order |
| Wiring.UnmappedTapSendsNothing | Classes/Action.swift:55-58 | a tap with no mapped event leaves the engine unchanged |
| Wiring.TapSendsEventOnce | Classes/Action.swift:48-60 | a tap on an onTap button heard by the engine alone equals one sendEvent of its event |
| Wiring.ExecuteSendsEventOnce | Classes/Action.swift:33-36 | execute on a custom action heard by the engine alone equals one sendEvent of its event |
| TestScenario.TestReduce | Example/Tests/Library/ArchitectureTests.swift:27-37 | whatever the state, loadProduct gives a promise that carries the loading state and always fulfils: with showingProduct(p) when the fetch yields p, with showingError(e) when it fails with e |
| TestScenario.LoadProductPublishesLoadingThenResult | Example/Tests/Library/ArchitectureTests.swift:27-37 | loading a product publishes loading and then the product, or the error if the fetch fails; the engine ends idle |
| TestScenario.YeezyScenario | Example/Tests/Library/ArchitectureTests.swift:52-70 | with the fetch yielding "Yeezy 500", the states published after the event are loading and then that product |
| PresenterScenario.CartCallRecovered | Example/PromisedArchitectureKit/Presenter.swift:56-60 | the cart call, mapped and recovered, always fulfils: with addedToCart(product, response) on success and with error(e) on failure |
| PresenterScenario.AddToCartResult | Example/PromisedArchitectureKit/Presenter.swift:51-62 | the add-to-cart result carries the loading state and fulfils iff both the product and the user fetch fulfil (its full outcome is stated by AddToCartRecoversOnlyTheCartCall) |
| PresenterScenario.PresenterReduce | Example/PromisedArchitectureKit/Presenter.swift:40-64 | whatever the state, loadProduct gives a promise carrying loading that always fulfils, with productLoaded(p) or error(e); addToCart gives one carrying loading that fulfils iff the product and user fetches fulfil |
| PresenterScenario.LoadProductShowsProductOrError | Example/PromisedArchitectureKit/Presenter.swift:43-49 | on a fresh presenter engine, loadProduct publishes start, loading and then the product or the error, and leaves the engine idle |
| PresenterScenario.AddToCartRecoversOnlyTheCartCall | Example/PromisedArchitectureKit/Presenter.swift:51-62 | the add-to-cart result carries loading; a failed cart call becomes an error state, but a failed product or user fetch rejects the result |
| PresenterScenario.FailedFetchStallsPresenter | Example/PromisedArchitectureKit/Presenter.swift:40-63 | if the cached product fetch fails, add-to-cart publishes only loading and the engine never runs the reducer again |

## Left out

- Threading: the `Thread.isMainThread` assertions, the `DispatchQueue` delays and PromiseKit's scheduling are left out. The model is one single-threaded machine with explicit `Settle` steps.
- The main-queue hop before the reducer runs (`Promise.value(event).then`) is collapsed into `SendEvent`. Nothing else can change the current state in between, so the logs are the same.
- The `.map` continuation (storing and publishing the state) and the `.done` continuation (callback, clearing the busy flag, sending the queue head) run on separate main-queue turns, but `Fulfil` runs them as one step. The per-kind logs are the same. Between the two turns the engine is still busy, so an event sent then only queues, exactly as it would if sent just before `Settle`. A callback installed between them is the one `.done` calls, which is the same as a `SetCallback` step just before `Settle`.
- The closures the engine calls (bindings and the loop callback) are identified by handles, and their calls are logged. Their own effects are not modelled, and that includes a re-entrant `sendEvent` from inside one.
- The logs are kept per kind. How the kinds interleave is stated only through the contracts of the transitions.
- The Objective-C associated-object storage behind `loadingState` is a plain field. `stateWhenLoading` returns the updated record. Its mutation of a promise that other holders share (aliasing) is not modelled.
- `Promise.parallel` is left out. It only forwards to PromiseKit's `when(fulfilled:)`, which is not part of this model.
- UIKit is left out: `UIButton`, `addTarget` and the view controller. `didTap` is modelled as called directly.
- Errors are an opaque type parameter, and no error value is inspected.
- The example's fake network calls (delays, `Int.random`) are left out. They become function parameters, so every outcome of a single call is covered. A parameter gives the same promise each time it is called with the same argument, so a run in which a call's outcome changes from one call to the next (the random cart call succeeding and then failing) is not covered.
- The reducer is a function: the same (state, event) always gives the same promise. The source's reducer is any closure, and it may return a different promise on each call (the example's random cart call). The engine lemmas hold for every reducer and do not rely on this. Only the scenario lemmas about repeated calls would, and none is stated.
- The reaction (feedback) cascade, state history and multiple subscribers are left out. No source file of this model implements them.
- Systems.Fulfil: for a non-empty queue, its contract says what the dispatched head does to the reducer log, the queue and the publication log. It says nothing further about the binding deliveries of that nested dispatch beyond what the invariant keeps.

## Findings

| source | as written | input that shows it | evidently intended | confidence | as-written member | corrected member |
|---|---|---|---|---|---|---|
| Classes/AsyncResult.swift:89-97 | `lhs.result == rhs.result` is true when both results are nil, so two results that were never folded compare equal | `AsyncResult(Promise.value(1)) == AsyncResult(Promise(error: e))`, neither folded, gives true | equal only when both sides have settled successfully and recorded equal values | medium; not executed | AsyncResults.FulfilledEqualsRejectedBeforeFold | AsyncResults.SettledEqual |
