/** The event engine of src/core/event.py, without its threads: a FIFO queue
    of events, a registry of type-specific handlers and a list of general
    handlers. Handlers are opaque ids, so dispatching an event yields the
    trace of calls it makes, in order. */
module Events {
  import opened Objects

  const EVENT_TICK: string := "eTick"
  const EVENT_BAR: string := "eBar"
  const EVENT_ORDER: string := "eOrder"
  const EVENT_TRADE: string := "eTrade"
  const EVENT_POSITION: string := "ePosition"
  const EVENT_ACCOUNT: string := "eAccount"
  const EVENT_LOG: string := "eLog"
  const EVENT_TIMER: string := "eTimer"
  const EVENT_SIGNAL: string := "eSignal"

  /** The type of the sentinel `stop()` enqueues to end the drain. */
  const STOP_TYPE: string := "_stop_"

  /** What an event carries (`Event.data`). */
  datatype Payload =
    | NoData
    | BarPayload(bar: BarData)
    | TickPayload(tick: TickData)
    | OrderPayload(order: OrderData)
    | TradePayload(trade: TradeData)
    | PositionPayload(position: PositionData)
    | AccountPayload(account: AccountData)

  datatype Event = Event(kind: string, data: Payload)

  function StopEvent(): Event {
    Event(STOP_TYPE, NoData)
  }

  /** A handler, identified by an opaque id (Python compares bound methods). */
  type HandlerId = nat

  /** One invocation `handler(event)`. */
  datatype Call = Call(handler: HandlerId, event: Event)

  predicate NoDuplicates(hs: seq<HandlerId>) {
    forall i, j :: 0 <= i < j < |hs| ==> hs[i] != hs[j]
  }

  /** `if handler not in hs: hs.append(handler)` */
  function WithHandler(hs: seq<HandlerId>, h: HandlerId): (r: seq<HandlerId>)
    ensures h in r && forall x :: x in r <==> x in hs || x == h
    ensures hs <= r && |r| <= |hs| + 1
    ensures NoDuplicates(hs) ==> NoDuplicates(r)
  {
    if h in hs then hs else hs + [h]
  }

  /** `if handler in hs: hs.remove(handler)`: drops the first occurrence. */
  function WithoutHandler(hs: seq<HandlerId>, h: HandlerId): (r: seq<HandlerId>)
    ensures forall x :: x != h ==> (x in r <==> x in hs)
    ensures |r| == if h in hs then |hs| - 1 else |hs|
    ensures NoDuplicates(hs) ==> h !in r && NoDuplicates(r)
  {
    if hs == [] then []
    else if hs[0] == h then hs[1..]
    else
      var rest := WithoutHandler(hs[1..], h);
      assert forall x :: x in hs <==> x == hs[0] || x in hs[1..];
      assert NoDuplicates(hs) ==> NoDuplicates(hs[1..]) && hs[0] !in hs[1..];
      [hs[0]] + rest
  }

  /** `self._handlers[type_]` read without creating the key. */
  function HandlersOf(handlers: map<string, seq<HandlerId>>, kind: string): seq<HandlerId> {
    if kind in handlers then handlers[kind] else []
  }

  /** The registry after `register(kind, h)`; a missing key is created, as
      the `defaultdict` does. */
  function Registered(handlers: map<string, seq<HandlerId>>, kind: string, h: HandlerId): (r: map<string, seq<HandlerId>>)
    ensures r.Keys == handlers.Keys + {kind}
    ensures h in r[kind] && forall k :: k in handlers && k != kind ==> r[k] == handlers[k]
    ensures HandlersOf(handlers, kind) <= r[kind] && |r[kind]| <= |HandlersOf(handlers, kind)| + 1
    ensures h in HandlersOf(handlers, kind) ==> r == handlers
  {
    handlers[kind := WithHandler(HandlersOf(handlers, kind), h)]
  }

  /** The handlers `_process` invokes for `e`, in invocation order:
      the type-specific ones, then the general ones. */
  function Dispatch(handlers: map<string, seq<HandlerId>>, general: seq<HandlerId>, e: Event): seq<HandlerId> {
    HandlersOf(handlers, e.kind) + general
  }

  /** The calls that invoke each of `hs` on `e`, in order. */
  function CallsFor(hs: seq<HandlerId>, e: Event): (r: seq<Call>)
    ensures |r| == |hs| && forall i :: 0 <= i < |hs| ==> r[i] == Call(hs[i], e)
  {
    if hs == [] then [] else [Call(hs[0], e)] + CallsFor(hs[1..], e)
  }

  lemma {:induction false} CallsForAppend(a: seq<HandlerId>, b: seq<HandlerId>, e: Event)
    ensures CallsFor(a + b, e) == CallsFor(a, e) + CallsFor(b, e)
  {
    assert |CallsFor(a + b, e)| == |CallsFor(a, e) + CallsFor(b, e)|;
  }

  /** A handler is invoked for `e` exactly when it is registered for e's
      own type or as a general handler; handlers registered only for other
      types are not invoked. */
  lemma DispatchReaches(handlers: map<string, seq<HandlerId>>, general: seq<HandlerId>, e: Event, h: HandlerId)
    ensures Call(h, e) in CallsFor(Dispatch(handlers, general, e), e)
        <==> h in HandlersOf(handlers, e.kind) || h in general
  {
    var hs := Dispatch(handlers, general, e);
    var cs := CallsFor(hs, e);
    if Call(h, e) in cs {
      var i :| 0 <= i < |cs| && cs[i] == Call(h, e);
      assert hs[i] == h;
    }
    if h in hs {
      var i :| 0 <= i < |hs| && hs[i] == h;
      assert cs[i] == Call(h, e);
    }
  }

  /** Every call `_process` makes for `e` goes to a handler registered for
      `e.kind` or a general one, all type-specific calls first. */
  lemma DispatchOrder(handlers: map<string, seq<HandlerId>>, general: seq<HandlerId>, e: Event)
    ensures CallsFor(Dispatch(handlers, general, e), e)
         == CallsFor(HandlersOf(handlers, e.kind), e) + CallsFor(general, e)
  {
    CallsForAppend(HandlersOf(handlers, e.kind), general, e);
  }

  /** The calls made by dispatching each of `events` in turn. */
  function AllCalls(handlers: map<string, seq<HandlerId>>, general: seq<HandlerId>, events: seq<Event>): seq<Call>
    decreases |events|
  {
    if events == [] then []
    else AllCalls(handlers, general, events[..|events| - 1])
         + CallsFor(Dispatch(handlers, general, events[|events| - 1]), events[|events| - 1])
  }

  /** What `_run` does to a queue with a fixed registry: dispatch events
      front to back until the sentinel, which is consumed but never
      dispatched; the result is the trace and the events left behind. */
  function Drain(handlers: map<string, seq<HandlerId>>, general: seq<HandlerId>, queue: seq<Event>): (r: (seq<Call>, seq<Event>))
    ensures forall c :: c in r.0 ==> c.event.kind != STOP_TYPE
    ensures |r.1| < |queue| || (r.1 == queue && queue == [])
    decreases |queue|
  {
    if queue == [] then ([], [])
    else if queue[0].kind == STOP_TYPE then ([], queue[1..])
    else
      var rest := Drain(handlers, general, queue[1..]);
      (CallsFor(Dispatch(handlers, general, queue[0]), queue[0]) + rest.0, rest.1)
  }

  lemma {:induction false} AllCallsPrepend(handlers: map<string, seq<HandlerId>>, general: seq<HandlerId>, e: Event, events: seq<Event>)
    ensures AllCalls(handlers, general, [e] + events)
         == CallsFor(Dispatch(handlers, general, e), e) + AllCalls(handlers, general, events)
    decreases |events|
  {
    if events != [] {
      var init := events[..|events| - 1];
      assert ([e] + events)[..|events|] == [e] + init;
      AllCallsPrepend(handlers, general, e, init);
    }
  }

  /** FIFO: the events before the first sentinel are dispatched in queue
      order, the sentinel ends the drain, and what follows it stays queued. */
  lemma {:induction false} DrainIsFifo(handlers: map<string, seq<HandlerId>>, general: seq<HandlerId>, before: seq<Event>, after: seq<Event>)
    requires forall e :: e in before ==> e.kind != STOP_TYPE
    ensures Drain(handlers, general, before + [StopEvent()] + after) == (AllCalls(handlers, general, before), after)
    decreases |before|
  {
    var q := before + [StopEvent()] + after;
    if before != [] {
      assert q[1..] == before[1..] + [StopEvent()] + after;
      DrainIsFifo(handlers, general, before[1..], after);
      AllCallsPrepend(handlers, general, before[0], before[1..]);
      assert [before[0]] + before[1..] == before;
    }
  }

  /** Without a sentinel the whole queue is dispatched in order. */
  lemma {:induction false} DrainWithoutStop(handlers: map<string, seq<HandlerId>>, general: seq<HandlerId>, queue: seq<Event>)
    requires forall e :: e in queue ==> e.kind != STOP_TYPE
    ensures Drain(handlers, general, queue) == (AllCalls(handlers, general, queue), [])
    decreases |queue|
  {
    if queue != [] {
      DrainWithoutStop(handlers, general, queue[1..]);
      AllCallsPrepend(handlers, general, queue[0], queue[1..]);
      assert [queue[0]] + queue[1..] == queue;
    }
  }

  lemma AppendAssoc(a: seq<Event>, b: seq<Event>, c: seq<Event>)
    ensures a + b + c == a + (b + c)
  {
  }

  /** Every handler list of the registry, and the general list, is free of duplicates. */
  predicate RegistryValid(handlers: map<string, seq<HandlerId>>, general: seq<HandlerId>) {
    (forall t :: t in handlers ==> NoDuplicates(handlers[t])) && NoDuplicates(general)
  }

  class EventEngine {
    var queue: seq<Event>
    var handlers: map<string, seq<HandlerId>>
    var general: seq<HandlerId>
    var active: bool
    const interval: real

    ghost predicate Valid()
      reads this
    {
      RegistryValid(handlers, general)
    }

    constructor (interval: real)
      ensures Valid() && this.interval == interval
      ensures queue == [] && handlers == map[] && general == [] && !active
    {
      this.interval := interval;
      queue := [];
      handlers := map[];
      general := [];
      active := false;
    }

    /** Marks the engine running (the worker threads are not modelled). */
    method Start()
      modifies this`active
      ensures active
    {
      active := true;
    }

    /** Clears the running flag and enqueues the sentinel that unblocks the drain. */
    method Stop()
      modifies this`active, this`queue
      ensures !active && queue == old(queue) + [StopEvent()]
    {
      active := false;
      Put(StopEvent());
    }

    method Put(e: Event)
      modifies this`queue
      ensures queue == old(queue) + [e]
    {
      queue := queue + [e];
    }

    method Register(kind: string, h: HandlerId)
      requires Valid()
      modifies this`handlers
      ensures Valid() && handlers == Registered(old(handlers), kind, h)
    {
      handlers := handlers[kind := WithHandler(HandlersOf(handlers, kind), h)];
    }

    method Unregister(kind: string, h: HandlerId)
      requires Valid()
      modifies this`handlers
      ensures handlers == old(handlers)[kind := WithoutHandler(HandlersOf(old(handlers), kind), h)]
      ensures Valid() && h !in handlers[kind]
    {
      handlers := handlers[kind := WithoutHandler(HandlersOf(handlers, kind), h)];
    }

    method RegisterGeneral(h: HandlerId)
      requires Valid()
      modifies this`general
      ensures Valid() && general == WithHandler(old(general), h)
    {
      general := WithHandler(general, h);
    }

    method UnregisterGeneral(h: HandlerId)
      requires Valid()
      modifies this`general
      ensures Valid() && h !in general
      ensures general == WithoutHandler(old(general), h)
    {
      general := WithoutHandler(general, h);
    }

    /** `_process`: the type-specific handlers in registration order, then
        the general handlers, each list iterated over a snapshot. */
    method Process(e: Event) returns (calls: seq<Call>)
      ensures calls == CallsFor(Dispatch(handlers, general, e), e)
    {
      calls := [];
      var specific := HandlersOf(handlers, e.kind);
      for i := 0 to |specific|
        invariant calls == CallsFor(specific[..i], e)
      {
        CallsForAppend(specific[..i], [specific[i]], e);
        assert specific[..i + 1] == specific[..i] + [specific[i]];
        calls := calls + [Call(specific[i], e)];
      }
      assert specific[..|specific|] == specific;
      var everyone := general;
      for i := 0 to |everyone|
        invariant calls == CallsFor(specific + everyone[..i], e)
      {
        CallsForAppend(specific + everyone[..i], [everyone[i]], e);
        assert specific + everyone[..i + 1] == specific + everyone[..i] + [everyone[i]];
        calls := calls + [Call(everyone[i], e)];
      }
      assert everyone[..|everyone|] == everyone;
    }

    /** `_run` as one sequential drain: while the engine is active, take
        events from the front of the queue and dispatch them, stopping at
        the sentinel or when the queue is empty. */
    method Run() returns (calls: seq<Call>)
      modifies this`queue
      ensures active ==> (calls, queue) == Drain(handlers, general, old(queue))
      ensures !active ==> calls == [] && queue == old(queue)
    {
      calls := [];
      if !active {
        return;
      }
      ghost var total := Drain(handlers, general, queue);
      var stopped := false;
      assert [] + Drain(handlers, general, queue).0 == total.0;
      while !stopped && queue != []
        invariant !stopped ==> total == (calls + Drain(handlers, general, queue).0, Drain(handlers, general, queue).1)
        invariant stopped ==> (calls, queue) == total
        decreases !stopped, |queue|
      {
        var e := queue[0];
        ghost var rest := Drain(handlers, general, queue[1..]);
        queue := queue[1..];
        if e.kind == STOP_TYPE {
          assert calls + [] == calls;
          stopped := true;
        } else {
          var more := Process(e);
          assert calls + (more + rest.0) == (calls + more) + rest.0;
          calls := calls + more;
        }
      }
      assert !stopped ==> calls + [] == calls;
    }
  }
}
