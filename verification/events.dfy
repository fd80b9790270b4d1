/** The event-name allow-list guard of EventDispatcherTrait and the listener registry it protects.
    The trait's state (the lazily created dispatcher and the fixed list of event names) is the
    class EventEmitter; the Symfony dispatcher behind it is the class Dispatcher, of which only the
    listener registry and the record of dispatched names are modelled. */
module Events {
  import opened Errors

  /** A listener callable; only its identity matters to the registry. */
  datatype Handler = Handler(id: nat)

  /** An event object handed to dispatch. */
  datatype Event = Event(id: nat)

  /** Listeners registered per event name, in registration order. */
  type Registry = map<string, seq<Handler>>

  /** The listeners registered under `name` (none when the name has no entry). */
  function ListenersFor(reg: Registry, name: string): seq<Handler>
  {
    if name in reg then reg[name] else []
  }

  /** The allow-list check: passes exactly for the names the component declares. */
  function AssertEventName(eventNames: set<string>, name: string): (r: Outcome)
    ensures r.Pass? <==> name in eventNames
    ensures r.Fail? ==> r.error == InvalidArgument
  {
    if name in eventNames then Pass else Fail(InvalidArgument)
  }

  /** The registry after `handler` is added under `name`: that name gains the handler at the end
      of its list, and every other name keeps exactly the listeners it had. */
  function WithListener(reg: Registry, name: string, handler: Handler): (r: Registry)
    ensures ListenersFor(r, name) == ListenersFor(reg, name) + [handler]
    ensures forall n :: n != name ==> ListenersFor(r, n) == ListenersFor(reg, n)
    ensures r.Keys == reg.Keys + {name}
  {
    reg[name := ListenersFor(reg, name) + [handler]]
  }

  /** The external event dispatcher: a listener registry and the events handed to it. */
  class Dispatcher {
    var listeners: Registry
    var dispatched: seq<(string, Event)>

    constructor ()
      ensures listeners == map[] && dispatched == []
    {
      listeners := map[];
      dispatched := [];
    }

    method AddListener(name: string, handler: Handler)
      modifies this
      ensures listeners == WithListener(old(listeners), name, handler)
      ensures dispatched == old(dispatched)
    {
      listeners := WithListener(listeners, name, handler);
    }

    method Dispatch(event: Event, name: string)
      modifies this
      ensures listeners == old(listeners)
      ensures dispatched == old(dispatched) + [(name, event)]
    {
      dispatched := dispatched + [(name, event)];
    }
  }

  /** The state EventDispatcherTrait adds to the class that uses it. */
  class EventEmitter {
    /** getEventNames(): the fixed allow-list of the component. */
    const eventNames: set<string>
    /** The dispatcher, null until first needed. */
    var eventDispatcher: Dispatcher?

    constructor (eventNames: set<string>)
      ensures this.eventNames == eventNames
      ensures eventDispatcher == null
    {
      this.eventNames := eventNames;
      eventDispatcher := null;
    }

    /** The registry as seen through the (possibly not yet created) dispatcher. */
    function Listeners(): Registry
      reads this, eventDispatcher
    {
      if eventDispatcher == null then map[] else eventDispatcher.listeners
    }

    /** The events dispatched so far, in order. */
    function Dispatched(): seq<(string, Event)>
      reads this, eventDispatcher
    {
      if eventDispatcher == null then [] else eventDispatcher.dispatched
    }

    /** Lazy creation: the first call creates an empty dispatcher, every later call returns
        that same instance, and the registry is never altered. */
    method GetEventDispatcher() returns (d: Dispatcher)
      modifies this
      ensures eventDispatcher == d
      ensures old(eventDispatcher) != null ==> d == old(eventDispatcher)
      ensures old(eventDispatcher) == null ==> fresh(d)
      ensures Listeners() == old(Listeners()) && Dispatched() == old(Dispatched())
    {
      if eventDispatcher == null {
        eventDispatcher := new Dispatcher();
      }
      d := eventDispatcher;
    }

    /** addListener: an unlisted name is rejected before the dispatcher is touched; a listed one
        appends the handler under that name only. */
    method AddListener(name: string, handler: Handler) returns (r: Outcome)
      modifies this, eventDispatcher
      ensures r == AssertEventName(eventNames, name)
      ensures old(eventDispatcher) != null ==> eventDispatcher == old(eventDispatcher)
      ensures r.Fail? ==> eventDispatcher == old(eventDispatcher) && Listeners() == old(Listeners())
      ensures r.Pass? ==> eventDispatcher != null && Listeners() == WithListener(old(Listeners()), name, handler)
      ensures Dispatched() == old(Dispatched())
    {
      r := AssertEventName(eventNames, name);
      if r.Fail? {
        return;
      }
      var d := GetEventDispatcher();
      d.AddListener(name, handler);
    }

    /** dispatch: an unlisted name is rejected before anything is dispatched; a listed one hands
        the event to the dispatcher without changing the registry. */
    method Dispatch(name: string, event: Event) returns (r: Outcome)
      modifies this, eventDispatcher
      ensures r == AssertEventName(eventNames, name)
      ensures old(eventDispatcher) != null ==> eventDispatcher == old(eventDispatcher)
      ensures Listeners() == old(Listeners())
      ensures r.Fail? ==> eventDispatcher == old(eventDispatcher) && Dispatched() == old(Dispatched())
      ensures r.Pass? ==> eventDispatcher != null && Dispatched() == old(Dispatched()) + [(name, event)]
    {
      r := AssertEventName(eventNames, name);
      if r.Fail? {
        return;
      }
      var d := GetEventDispatcher();
      d.Dispatch(event, name);
    }
  }
}
