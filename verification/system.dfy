/** The event-loop engine, `System<State, Event>`.

    The engine is a record and its operations are pure transition
    functions. Asynchrony is reduced to one explicit step: `SendEvent` calls
    the reducer and keeps the promise it returns in `inFlight`, and `Settle`
    is one step standing for the later main-queue turns on which that
    promise settles and its `.map` and `.done` continuations run.
    The reducer is a function, so the same state and event always give the
    same promise; no lemma here relies on that.
    Closures the engine holds (UI bindings, the loop callback) are
    identified by handles, and every effect the engine has on the outside
    world is appended to a log: the reducer's inputs, the states handed to
    `bindUI`, the individual binding invocations and the callback
    invocations.
 */
module Systems {
  import opened Outcomes
  import opened PromiseExtensions

  /** Identity of a closure the engine holds: a UI binding or the loop
      callback. */
  type Handle = nat

  /** One invocation of the UI binding in slot `slot` of `uiBindings`. */
  datatype Delivery<S> = Delivery(slot: nat, state: S)

  datatype System<!S, !Ev, Err> = System(
    initialState: S,
    reducer: (S, Ev) -> Promise<S, Err>,
    uiBindings: seq<Option<Handle>>,
    currentState: S,
    eventQueue: seq<Ev>,
    actionExecuting: bool,
    callback: Option<Handle>,
    // the reducer's promise that has not settled yet
    inFlight: Option<Promise<S, Err>>,
    // logs of what the engine did, oldest first
    reducerInputs: seq<(S, Ev)>,
    published: seq<S>,
    deliveries: seq<Delivery<S>>,
    callbackCalls: seq<(Handle, S)>)

  // ---------------------------------------------------------------------
  // bindUI

  /** `ds` hands `s` to every non-nil binding exactly once, in list order,
      and to nothing else. */
  ghost predicate BroadcastOnce<S>(ds: seq<Delivery<S>>, bindings: seq<Option<Handle>>, s: S)
  {
    && (forall i :: 0 <= i < |ds| ==>
          ds[i].slot < |bindings| && bindings[ds[i].slot].Some? && ds[i].state == s)
    && (forall i, j :: 0 <= i < j < |ds| ==> ds[i].slot < ds[j].slot)
    && (forall k :: 0 <= k < |bindings| && bindings[k].Some? ==> Delivery(k, s) in ds)
  }

  /** The deliveries of `bindUI(s)` to the bindings from slot `from` on. */
  function BindFrom<S>(bindings: seq<Option<Handle>>, from: nat, s: S): (r: seq<Delivery<S>>)
    requires from <= |bindings|
    ensures forall i :: 0 <= i < |r| ==>
      from <= r[i].slot < |bindings| && bindings[r[i].slot].Some? && r[i].state == s
    ensures forall i, j :: 0 <= i < j < |r| ==> r[i].slot < r[j].slot
    ensures forall k :: from <= k < |bindings| && bindings[k].Some? ==> Delivery(k, s) in r
    decreases |bindings| - from
  {
    if from == |bindings| then []
    else
      var here := if bindings[from].Some? then [Delivery(from, s)] else [];
      here + BindFrom(bindings, from + 1, s)
  }

  /** `bindUI(s)`: every non-nil binding receives `s` once, in list order;
      nil bindings are skipped. */
  function BindUI<S>(bindings: seq<Option<Handle>>, s: S): (r: seq<Delivery<S>>)
    ensures BroadcastOnce(r, bindings, s)
  {
    BindFrom(bindings, 0, s)
  }

  /** All deliveries of publishing `states` one after the other. */
  function Broadcast<S>(bindings: seq<Option<Handle>>, states: seq<S>): seq<Delivery<S>>
    decreases |states|
  {
    if |states| == 0 then []
    else Broadcast(bindings, states[..|states| - 1]) + BindUI(bindings, states[|states| - 1])
  }

  /** One `bindUI` call, recorded in both logs. */
  function Publish<S, Ev, Err>(sys: System<S, Ev, Err>, s: S): System<S, Ev, Err>
  {
    sys.(published := sys.published + [s],
         deliveries := sys.deliveries + BindUI(sys.uiBindings, s))
  }

  /** The loading state a reducer result asks to publish, if any. */
  function LoadingOf<S, Err>(p: Promise<S, Err>): seq<S>
  {
    match p.loadingState
    case Some(l) => [l]
    case None => []
  }

  /** The events the reducer has been called with, in call order. */
  function EventsOf<S, Ev>(inputs: seq<(S, Ev)>): seq<Ev>
    decreases |inputs|
  {
    if |inputs| == 0 then []
    else EventsOf(inputs[..|inputs| - 1]) + [inputs[|inputs| - 1].1]
  }

  /** Every event the engine has accepted, in acceptance order: those the
      reducer has seen, then those still queued. */
  function Accepted<S, Ev, Err>(sys: System<S, Ev, Err>): seq<Ev>
  {
    EventsOf(sys.reducerInputs) + sys.eventQueue
  }

  /** The invariant between steps: queued events and an unsettled reducer
      result both mean the engine is busy, and the binding invocations are
      exactly those of the published states. */
  ghost predicate Valid<S, Ev, Err>(sys: System<S, Ev, Err>)
  {
    && (|sys.eventQueue| > 0 ==> sys.actionExecuting)
    && (sys.inFlight.Some? ==> sys.actionExecuting)
    && Consistent(sys)
  }

  /** The binding invocations are exactly those of the published states. */
  ghost predicate Consistent<S, Ev, Err>(sys: System<S, Ev, Err>)
  {
    sys.deliveries == Broadcast(sys.uiBindings, sys.published)
  }

  lemma PublishKeepsDeliveries<S, Ev, Err>(sys: System<S, Ev, Err>, s: S)
    ensures Consistent(sys) ==> Consistent(Publish(sys, s))
  {
    var states := sys.published + [s];
    assert states[..|states| - 1] == sys.published;
  }

  lemma EventsOfAppend<S, Ev>(inputs: seq<(S, Ev)>, x: (S, Ev))
    ensures EventsOf(inputs + [x]) == EventsOf(inputs) + [x.1]
  {
    var all := inputs + [x];
    assert all[..|all| - 1] == inputs;
  }

  /** What the loop never changes: the construction arguments and the
      installed loop callback. */
  ghost predicate SameSetup<S, Ev, Err>(a: System<S, Ev, Err>, b: System<S, Ev, Err>)
  {
    && a.initialState == b.initialState
    && a.reducer == b.reducer
    && a.uiBindings == b.uiBindings
    && a.callback == b.callback
  }

  // ---------------------------------------------------------------------
  // Construction

  /** The private `init`: the current state starts as the initial state and
      nothing has happened yet. */
  function Init<S, Ev, Err>(initialState: S, reducer: (S, Ev) -> Promise<S, Err>,
                            uiBindings: seq<Option<Handle>>): (r: System<S, Ev, Err>)
    ensures r.currentState == r.initialState == initialState
    ensures r.reducer == reducer && r.uiBindings == uiBindings
    ensures !r.actionExecuting && r.eventQueue == [] && r.inFlight.None? && r.callback.None?
    ensures r.reducerInputs == [] && r.published == [] && r.deliveries == []
    ensures r.callbackCalls == []
  {
    System(initialState, reducer, uiBindings, initialState, [], false, None, None, [], [], [], [])
  }

  /** `pure`: constructs the engine and publishes the initial state once to
      every non-nil binding, in list order. */
  function Pure<S, Ev, Err>(initialState: S, reducer: (S, Ev) -> Promise<S, Err>,
                            uiBindings: seq<Option<Handle>>): (r: System<S, Ev, Err>)
    ensures r.currentState == r.initialState == initialState
    ensures r.reducer == reducer && r.uiBindings == uiBindings
    ensures r.published == [initialState]
    ensures BroadcastOnce(r.deliveries, uiBindings, initialState)
    ensures !r.actionExecuting && r.eventQueue == [] && r.inFlight.None? && r.callback.None?
    ensures r.reducerInputs == [] && r.callbackCalls == []
    ensures Valid(r)
  {
    var sys := Init(initialState, reducer, uiBindings);
    PublishKeepsDeliveries(sys, initialState);
    assert [initialState][..0] == [];
    Publish(sys, initialState)
  }

  /** `addLoopCallback`: installs `c` as the one loop callback, replacing
      any previous one; nothing else changes. */
  function AddLoopCallback<S, Ev, Err>(sys: System<S, Ev, Err>, c: Handle): (r: System<S, Ev, Err>)
    ensures r.callback == Some(c)
    ensures r.(callback := sys.callback) == sys
    ensures Valid(sys) ==> Valid(r)
  {
    sys.(callback := Some(c))
  }

  // ---------------------------------------------------------------------
  // The loop

  /** The first half of `doLoop`: call the reducer on the current state and
      publish the loading state its promise carries, if any. */
  function StartLoop<S, Ev, Err>(sys: System<S, Ev, Err>, ev: Ev): (r: System<S, Ev, Err>)
    ensures SameSetup(r, sys)
    ensures r.currentState == sys.currentState && r.callbackCalls == sys.callbackCalls
    ensures r.actionExecuting == sys.actionExecuting && r.eventQueue == sys.eventQueue
    ensures r.reducerInputs == sys.reducerInputs + [(sys.currentState, ev)]
    ensures EventsOf(r.reducerInputs) == EventsOf(sys.reducerInputs) + [ev]
    ensures r.inFlight == Some(sys.reducer(sys.currentState, ev))
    ensures r.published == sys.published + LoadingOf(sys.reducer(sys.currentState, ev))
    ensures Consistent(sys) ==> Consistent(r)
  {
    var p := sys.reducer(sys.currentState, ev);
    var called := sys.(reducerInputs := sys.reducerInputs + [(sys.currentState, ev)],
                       inFlight := Some(p));
    EventsOfAppend(sys.reducerInputs, (sys.currentState, ev));
    match p.loadingState
    case Some(l) => PublishKeepsDeliveries(called, l); Publish(called, l)
    case None => called
  }

  /** `sendEvent`: while busy the event joins the end of the queue and
      nothing else changes; while idle the engine becomes busy and calls
      the reducer once with the current state and the event, publishing the
      loading state of its result before anything else. */
  function SendEvent<S, Ev, Err>(sys: System<S, Ev, Err>, ev: Ev): (r: System<S, Ev, Err>)
    ensures r.actionExecuting
    ensures r.currentState == sys.currentState
    ensures r.callbackCalls == sys.callbackCalls
    ensures sys.actionExecuting ==>
      && r.eventQueue == sys.eventQueue + [ev]
      && r.reducerInputs == sys.reducerInputs
      && r.inFlight == sys.inFlight
      && r.published == sys.published
      && r.deliveries == sys.deliveries
    ensures !sys.actionExecuting ==>
      && r.eventQueue == sys.eventQueue
      && r.reducerInputs == sys.reducerInputs + [(sys.currentState, ev)]
      && r.inFlight == Some(sys.reducer(sys.currentState, ev))
      && r.published == sys.published + LoadingOf(sys.reducer(sys.currentState, ev))
      && EventsOf(r.reducerInputs) == EventsOf(sys.reducerInputs) + [ev]
    ensures sys.actionExecuting ==> r.(eventQueue := sys.eventQueue) == sys
    ensures Valid(sys) ==> Accepted(r) == Accepted(sys) + [ev]
    ensures SameSetup(r, sys)
    ensures Consistent(sys) ==> Consistent(r)
    ensures Valid(sys) ==> Valid(r)
  {
    if sys.actionExecuting then
      sys.(eventQueue := sys.eventQueue + [ev])
    else
      StartLoop(sys.(actionExecuting := true), ev)
  }

  /** The loop callback invocation on a successful settlement, if a
      callback is installed. */
  function CallbackWith<S, Ev, Err>(sys: System<S, Ev, Err>, v: S): seq<(Handle, S)>
  {
    match sys.callback
    case Some(c) => [(c, v)]
    case None => []
  }

  /** Regrouping of appends, stated on names so that the solver does not
      have to look through the terms they stand for. */
  lemma AppendRegroups<T>(a: seq<T>, b: seq<T>, c: seq<T>, ab: seq<T>, abc: seq<T>)
    requires ab == a + b && abc == ab + c
    ensures abc == a + (b + c)
  {
  }

  /** The continuations of a fulfilled reducer promise, on an engine with
      nothing left in flight: the `map` stores `v` as the current state and
      publishes it; the `done` hands it to the loop callback, if one is
      installed, clears the busy flag and sends the head of the queue, if
      any, which calls the reducer on `v` at once. */
  function Fulfil<S, Ev, Err>(sys: System<S, Ev, Err>, v: S): (r: System<S, Ev, Err>)
    requires sys.inFlight.None?
    ensures r.currentState == v
    ensures r.callbackCalls == sys.callbackCalls + CallbackWith(sys, v)
    ensures SameSetup(r, sys)
    ensures |sys.eventQueue| == 0 ==>
      && !r.actionExecuting
      && r.inFlight.None?
      && r.eventQueue == []
      && r.reducerInputs == sys.reducerInputs
      && r.published == sys.published + [v]
    ensures |sys.eventQueue| > 0 ==>
      && r.actionExecuting
      && r.eventQueue == sys.eventQueue[1..]
      && r.reducerInputs == sys.reducerInputs + [(v, sys.eventQueue[0])]
      && r.inFlight == Some(sys.reducer(v, sys.eventQueue[0]))
      && r.published == sys.published + [v] + LoadingOf(sys.reducer(v, sys.eventQueue[0]))
    ensures Accepted(r) == Accepted(sys)
    ensures Consistent(sys) ==> Valid(r)
  {
    var stored := sys.(currentState := v);
    PublishKeepsDeliveries(stored, v);
    var shown := Publish(stored, v);
    var called := shown.(callbackCalls := shown.callbackCalls + CallbackWith(sys, v));
    var idle := called.(actionExecuting := false);
    if |idle.eventQueue| > 0 then
      var next, rest := idle.eventQueue[0], idle.eventQueue[1..];
      var r := SendEvent(idle.(eventQueue := rest), next);
      assert sys.eventQueue == [next] + rest;
      AppendRegroups(EventsOf(sys.reducerInputs), [next], rest, EventsOf(r.reducerInputs), Accepted(r));
      r
    else
      idle
  }

  /** The reducer's promise settles. A fulfilment runs the continuations
      (`Fulfil`). On a rejection neither continuation runs: nothing is
      published, no callback fires and the engine stays busy. With nothing
      in flight there is nothing to settle. */
  function Settle<S, Ev, Err>(sys: System<S, Ev, Err>): (r: System<S, Ev, Err>)
    ensures sys.inFlight.None? ==> r == sys
    ensures sys.inFlight.Some? && sys.inFlight.value.outcome.Failure? ==>
      r == sys.(inFlight := None)
    ensures sys.inFlight.Some? && sys.inFlight.value.outcome.Success? ==>
      r == Fulfil(sys.(inFlight := None), sys.inFlight.value.outcome.value)
    ensures Accepted(r) == Accepted(sys)
    ensures SameSetup(r, sys)
    ensures Valid(sys) ==> Valid(r)
  {
    match sys.inFlight
    case None => sys
    case Some(p) =>
      match p.outcome
      case Failure(_) => sys.(inFlight := None)
      case Success(v) => Fulfil(sys.(inFlight := None), v)
  }

  // ---------------------------------------------------------------------
  // Runs of the engine

  /** What can happen to an engine between two of its steps. */
  datatype Step<Ev> = Send(ev: Ev) | SettleInFlight | SetCallback(handle: Handle)

  function Apply<S, Ev, Err>(sys: System<S, Ev, Err>, step: Step<Ev>): System<S, Ev, Err>
  {
    match step
    case Send(ev) => SendEvent(sys, ev)
    case SettleInFlight => Settle(sys)
    case SetCallback(c) => AddLoopCallback(sys, c)
  }

  function Run<S, Ev, Err>(sys: System<S, Ev, Err>, steps: seq<Step<Ev>>): System<S, Ev, Err>
    decreases |steps|
  {
    if |steps| == 0 then sys else Run(Apply(sys, steps[0]), steps[1..])
  }

  /** The events handed to `sendEvent` during `steps`, in order. */
  function Sent<Ev>(steps: seq<Step<Ev>>): seq<Ev>
    decreases |steps|
  {
    if |steps| == 0 then []
    else SentBy(steps[0]) + Sent(steps[1..])
  }

  /** The event a single step sends, if any. */
  function SentBy<Ev>(step: Step<Ev>): seq<Ev>
  {
    if step.Send? then [step.ev] else []
  }

  lemma RunUnfolds<S, Ev, Err>(sys: System<S, Ev, Err>, steps: seq<Step<Ev>>)
    requires |steps| > 0
    ensures Run(sys, steps) == Run(Apply(sys, steps[0]), steps[1..])
    ensures Sent(steps) == SentBy(steps[0]) + Sent(steps[1..])
  {
  }

  lemma StepKeepsSendOrder<S, Ev, Err>(sys: System<S, Ev, Err>, step: Step<Ev>)
    requires Valid(sys)
    ensures Valid(Apply(sys, step))
    ensures Accepted(Apply(sys, step)) == Accepted(sys) + SentBy(step)
  {
  }

  lemma StepOnlyAppends<S, Ev, Err>(sys: System<S, Ev, Err>, step: Step<Ev>)
    ensures sys.published <= Apply(sys, step).published
    ensures sys.reducerInputs <= Apply(sys, step).reducerInputs
  {
  }

  /** Every run keeps the invariant and accepts events in exactly the order
      they were sent: none is dropped, reordered or duplicated. */
  lemma {:induction false} RunKeepsSendOrder<S, Ev, Err>(sys: System<S, Ev, Err>,
                                                         steps: seq<Step<Ev>>)
    requires Valid(sys)
    ensures Valid(Run(sys, steps))
    ensures Accepted(Run(sys, steps)) == Accepted(sys) + Sent(steps)
    decreases |steps|
  {
    if |steps| > 0 {
      var next, rest := Apply(sys, steps[0]), steps[1..];
      StepKeepsSendOrder(sys, steps[0]);
      RunKeepsSendOrder(next, rest);
      RunUnfolds(sys, steps);
      AppendRegroups(Accepted(sys), SentBy(steps[0]), Sent(rest),
                     Accepted(next), Accepted(Run(next, rest)));
    }
  }

  /** The publication log and the reducer log are append-only: a run never
      rewrites or reorders what was already published or reduced. */
  lemma {:induction false} RunOnlyAppends<S, Ev, Err>(sys: System<S, Ev, Err>,
                                                      steps: seq<Step<Ev>>)
    ensures sys.published <= Run(sys, steps).published
    ensures sys.reducerInputs <= Run(sys, steps).reducerInputs
    decreases |steps|
  {
    if |steps| > 0 {
      var next, rest := Apply(sys, steps[0]), steps[1..];
      StepOnlyAppends(sys, steps[0]);
      RunOnlyAppends(next, rest);
      RunUnfolds(sys, steps);
    }
  }

  /** FIFO: starting from `pure`, the reducer sees a prefix of the sent
      events, in the order they were sent, and the rest are still queued. */
  lemma {:induction false} ReducerSeesEventsInSendOrder<S, Ev, Err>(initialState: S,
                                                 reducer: (S, Ev) -> Promise<S, Err>,
                                                 uiBindings: seq<Option<Handle>>,
                                                 steps: seq<Step<Ev>>)
    ensures var r := Run(Pure(initialState, reducer, uiBindings), steps);
            && EventsOf(r.reducerInputs) + r.eventQueue == Sent(steps)
            && EventsOf(r.reducerInputs) <= Sent(steps)
            && Valid(r)
  {
    var sys := Pure(initialState, reducer, uiBindings);
    RunKeepsSendOrder(sys, steps);
    assert Accepted(sys) == [];
  }

  /** A stalled engine (busy, with nothing left to settle, which is where a
      rejected reducer result leaves it) stays stalled: whatever happens,
      the reducer is never called again, nothing is published, the state
      does not change and every sent event only queues. */
  lemma {:induction false} StalledEngineOnlyQueues<S, Ev, Err>(sys: System<S, Ev, Err>,
                                                               steps: seq<Step<Ev>>)
    requires sys.actionExecuting && sys.inFlight.None?
    ensures var r := Run(sys, steps);
            && r.actionExecuting && r.inFlight.None?
            && r.reducerInputs == sys.reducerInputs
            && r.published == sys.published
            && r.currentState == sys.currentState
            && r.callbackCalls == sys.callbackCalls
            && r.eventQueue == sys.eventQueue + Sent(steps)
    decreases |steps|
  {
    if |steps| > 0 {
      var next := Apply(sys, steps[0]);
      StalledEngineOnlyQueues(next, steps[1..]);
      assert sys.eventQueue + Sent(steps) ==
             next.eventQueue + Sent(steps[1..]);
    }
  }

  /** One event through an idle engine: the reducer is called once with the
      current state; the loading state, if any, is published before the
      final state; on fulfilment the final state becomes current, the
      callback receives it and the engine is idle again; on rejection the
      engine is left stalled after publishing only the loading state. */
  lemma OneEventCycle<S, Ev, Err>(sys: System<S, Ev, Err>, ev: Ev)
    requires Valid(sys) && !sys.actionExecuting
    ensures var p := sys.reducer(sys.currentState, ev);
            var r := Settle(SendEvent(sys, ev));
            && r.reducerInputs == sys.reducerInputs + [(sys.currentState, ev)]
            && (p.outcome.Success? ==>
                  && r.published == sys.published + LoadingOf(p) + [p.outcome.value]
                  && r.currentState == p.outcome.value
                  && r.callbackCalls == sys.callbackCalls + CallbackWith(sys, p.outcome.value)
                  && !r.actionExecuting && Valid(r))
            && (p.outcome.Failure? ==>
                  && r.published == sys.published + LoadingOf(p)
                  && r.currentState == sys.currentState
                  && r.callbackCalls == sys.callbackCalls
                  && r.actionExecuting && r.inFlight.None?)
  {
  }

  /** `addLoopCallback` replaces: after two installations only the second
      callback is held, and a successful settlement calls exactly it, once. */
  lemma CallbackReplaced<S, Ev, Err>(sys: System<S, Ev, Err>, c1: Handle, c2: Handle)
    ensures AddLoopCallback(AddLoopCallback(sys, c1), c2) == AddLoopCallback(sys, c2)
    ensures var s := AddLoopCallback(AddLoopCallback(sys, c1), c2);
            s.inFlight.Some? && s.inFlight.value.outcome.Success? ==>
              Settle(s).callbackCalls == sys.callbackCalls + [(c2, s.inFlight.value.outcome.value)]
  {
  }
}
