/** Action sources: `Action`, `CustomAction` and `UIButtonAction`.

    An action holds an ordered list of listeners (engines, identified here
    by a handle of type `L`). Notifying it produces the list of deliveries,
    one per listener in list order; what a listening engine does with a
    delivery is in the Wiring module. The three classes share the listener
    list, so they are the three variants of one datatype.
 */
module Actions {

  /** `UIControlEvents.touchUpInside.rawValue` in UIKit (bit 6). */
  const TouchUpInside: nat := 64

  datatype Action<L, Ev> =
    | Plain(listeners: seq<L>)
    | Custom(listeners: seq<L>, event: Ev)
    | Button(listeners: seq<L>, events: map<nat, Ev>)

  /** One call of a listener's event entry point. */
  datatype Notification<L, Ev> = Notification(listener: L, event: Ev)

  /** `addListener`: the new listener goes last. */
  function AddListener<L, Ev>(a: Action<L, Ev>, l: L): (r: Action<L, Ev>)
    ensures r.listeners == a.listeners + [l]
    ensures r.(listeners := a.listeners) == a
  {
    a.(listeners := a.listeners + [l])
  }

  /** Registers `ls` one after the other. */
  function AddListeners<L, Ev>(a: Action<L, Ev>, ls: seq<L>): Action<L, Ev>
    decreases |ls|
  {
    if |ls| == 0 then a else AddListeners(AddListener(a, ls[0]), ls[1..])
  }

  /** Registration order is listener order: registering `ls` one by one
      appends exactly `ls`, in that order. */
  lemma {:induction false} ListenersInRegistrationOrder<L, Ev>(a: Action<L, Ev>, ls: seq<L>)
    ensures AddListeners(a, ls).listeners == a.listeners + ls
    ensures AddListeners(a, ls).(listeners := a.listeners) == a
    decreases |ls|
  {
    if |ls| > 0 {
      ListenersInRegistrationOrder(AddListener(a, ls[0]), ls[1..]);
      assert a.listeners + [ls[0]] + ls[1..] == a.listeners + ls;
    }
  }

  /** The `forEach` of `notify` over a listener list. */
  function NotifyAll<L, Ev>(listeners: seq<L>, ev: Ev): (r: seq<Notification<L, Ev>>)
    ensures |r| == |listeners|
    ensures forall i :: 0 <= i < |r| ==> r[i] == Notification(listeners[i], ev)
    decreases |listeners|
  {
    if |listeners| == 0 then []
    else [Notification(listeners[0], ev)] + NotifyAll(listeners[1..], ev)
  }

  /** `notify`: every listener receives `ev` exactly once, in list order;
      with no listeners nothing happens. */
  function Notify<L, Ev>(a: Action<L, Ev>, ev: Ev): (r: seq<Notification<L, Ev>>)
    ensures |r| == |a.listeners|
    ensures forall i :: 0 <= i < |r| ==> r[i].listener == a.listeners[i] && r[i].event == ev
  {
    NotifyAll(a.listeners, ev)
  }

  /** A listener registered later is notified after all earlier ones. */
  lemma NotifyAfterAddListener<L, Ev>(a: Action<L, Ev>, l: L, ev: Ev)
    ensures Notify(AddListener(a, l), ev) == Notify(a, ev) + [Notification(l, ev)]
  {
    var r, s := Notify(AddListener(a, l), ev), Notify(a, ev) + [Notification(l, ev)];
    assert |r| == |s|;
    forall i | 0 <= i < |r|
      ensures r[i] == s[i]
    {
    }
  }

  /** `CustomAction(trigger:)`: no listeners yet. */
  function MakeCustom<L, Ev>(event: Ev): (r: Action<L, Ev>)
    ensures r.Custom? && r.event == event && r.listeners == []
  {
    Custom([], event)
  }

  /** `execute`: notifies every listener with the event given at
      construction, and with no other. */
  function Execute<L, Ev>(a: Action<L, Ev>): (r: seq<Notification<L, Ev>>)
    requires a.Custom?
    ensures |r| == |a.listeners|
    ensures forall i :: 0 <= i < |r| ==> r[i] == Notification(a.listeners[i], a.event)
  {
    Notify(a, a.event)
  }

  /** `onTap(in:trigger:)`: a button action with no listeners whose only
      mapped key is touch-up-inside, mapped to `event`. */
  function OnTap<L, Ev>(event: Ev): (r: Action<L, Ev>)
    ensures r.Button? && r.listeners == []
    ensures r.events.Keys == {TouchUpInside}
    ensures r.events[TouchUpInside] == event
  {
    Button([], map[TouchUpInside := event])
  }

  /** `didTap`: looks up the touch-up-inside event; when none is mapped
      nobody is notified, otherwise every listener receives it once. */
  function DidTap<L, Ev>(a: Action<L, Ev>): (r: seq<Notification<L, Ev>>)
    requires a.Button?
    ensures TouchUpInside !in a.events ==> r == []
    ensures TouchUpInside in a.events ==>
      && |r| == |a.listeners|
      && forall i :: 0 <= i < |r| ==>
           r[i] == Notification(a.listeners[i], a.events[TouchUpInside])
  {
    if TouchUpInside in a.events then Notify(a, a.events[TouchUpInside]) else []
  }

  /** A tap on a button built by `onTap` delivers the event it was built
      with to every listener registered afterwards, in registration order. */
  lemma TapDeliversOnTapEvent<L, Ev>(event: Ev, ls: seq<L>)
    ensures var b := AddListeners(OnTap<L, Ev>(event), ls);
            && b.Button?
            && DidTap(b) == NotifyAll(ls, event)
  {
    ListenersInRegistrationOrder(OnTap<L, Ev>(event), ls);
  }
}
