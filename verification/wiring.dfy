/** Action sources feeding an engine.

    `notify` calls `onAction` on each listening engine, an entry point that
    `System` does not declare; it is taken to be `sendEvent`, the engine's
    only way in for events. An engine is identified by a listener handle,
    and it receives, in order, the notifications addressed to it.
 */
module Wiring {
  import opened Actions
  import opened Systems

  /** The event of `n`, if it is addressed to `me`. */
  function Mine<L(==), Ev>(n: Notification<L, Ev>, me: L): seq<Ev>
  {
    if n.listener == me then [n.event] else []
  }

  /** The events of the notifications addressed to `me`, in order. */
  function AddressedTo<L(==), Ev>(ns: seq<Notification<L, Ev>>, me: L): seq<Ev>
    decreases |ns|
  {
    if |ns| == 0 then [] else Mine(ns[0], me) + AddressedTo(ns[1..], me)
  }

  /** `onAction` of the engine `me`: a notification addressed to it is one
      `sendEvent`; any other leaves it alone. */
  function Deliver<S, Ev, Err, L(==)>(sys: System<S, Ev, Err>, me: L, n: Notification<L, Ev>)
    : (r: System<S, Ev, Err>)
    ensures Valid(sys) ==> Valid(r) && Accepted(r) == Accepted(sys) + Mine(n, me)
    ensures Mine(n, me) == [] ==> r == sys
  {
    if n.listener == me then SendEvent(sys, n.event) else sys
  }

  /** The engine `me` handles its notifications one `sendEvent` at a time. */
  function Receive<S, Ev, Err, L(==)>(sys: System<S, Ev, Err>, me: L, ns: seq<Notification<L, Ev>>)
    : System<S, Ev, Err>
    decreases |ns|
  {
    if |ns| == 0 then sys else Receive(Deliver(sys, me, ns[0]), me, ns[1..])
  }

  /** A listening engine keeps its invariant whatever it is notified of. */
  lemma {:induction false} ReceiveKeepsValid<S, Ev, Err, L>(
    sys: System<S, Ev, Err>, me: L, ns: seq<Notification<L, Ev>>)
    requires Valid(sys)
    ensures Valid(Receive(sys, me, ns))
    decreases |ns|
  {
    if |ns| > 0 {
      ReceiveKeepsValid(Deliver(sys, me, ns[0]), me, ns[1..]);
      ReceiveUnfolds(sys, me, ns);
    }
  }

  /** A listening engine accepts exactly the events addressed to it, in
      notification order. */
  lemma {:induction false} ReceiveAcceptsAddressedEvents<S, Ev, Err, L>(
    sys: System<S, Ev, Err>, me: L, ns: seq<Notification<L, Ev>>)
    requires Valid(sys)
    ensures Accepted(Receive(sys, me, ns)) == Accepted(sys) + AddressedTo(ns, me)
    decreases |ns|
  {
    if |ns| > 0 {
      var next, rest := Deliver(sys, me, ns[0]), ns[1..];
      ReceiveAcceptsAddressedEvents(next, me, rest);
      ReceiveUnfolds(sys, me, ns);
      AppendRegroups(Accepted(sys), Mine(ns[0], me), AddressedTo(rest, me),
                     Accepted(next), Accepted(Receive(next, me, rest)));
    }
  }

  lemma ReceiveUnfolds<S, Ev, Err, L>(sys: System<S, Ev, Err>, me: L, ns: seq<Notification<L, Ev>>)
    requires |ns| > 0
    ensures Receive(sys, me, ns) == Receive(Deliver(sys, me, ns[0]), me, ns[1..])
    ensures AddressedTo(ns, me) == Mine(ns[0], me) + AddressedTo(ns[1..], me)
  {
  }

  /** A tap on a button with no touch-up-inside event mapped reaches no
      engine. */
  lemma UnmappedTapSendsNothing<S, Ev, Err, L>(sys: System<S, Ev, Err>, b: Action<L, Ev>, me: L)
    requires b.Button? && TouchUpInside !in b.events
    ensures Receive(sys, me, DidTap(b)) == sys
  {
  }

  /** A tap on a button built by `onTap` and listened to by the engine
      alone sends the engine exactly the event the button was built with,
      once. */
  lemma TapSendsEventOnce<S, Ev, Err, L>(sys: System<S, Ev, Err>, event: Ev, me: L)
    ensures Receive(sys, me, DidTap(AddListener(OnTap<L, Ev>(event), me))) == SendEvent(sys, event)
  {
    var ns := DidTap(AddListener(OnTap<L, Ev>(event), me));
    assert ns == [Notification(me, event)];
    assert ns[1..] == [];
  }

  /** `execute` on a custom action listened to by the engine alone sends the
      engine exactly the action's event, once. */
  lemma ExecuteSendsEventOnce<S, Ev, Err, L>(sys: System<S, Ev, Err>, event: Ev, me: L)
    ensures Receive(sys, me, Execute(AddListener(MakeCustom<L, Ev>(event), me))) ==
            SendEvent(sys, event)
  {
    var ns := Execute(AddListener(MakeCustom<L, Ev>(event), me));
    assert ns == [Notification(me, event)];
    assert ns[1..] == [];
  }
}
